/** The request and response records the handlers of endpoint/ work on, in place of `net/http`,
    JSON decoding and `io.ReadAll`, and the store and broker behaviour a handler depends on. */
module Http {
  import opened Wrappers
  import opened ApiErrors
  import opened Types
  import opened Jwt
  import opened Logging
  import opened Store
  import opened JobBroker

  const MethodPost: string := "POST"
  const ContentTypeJson: string := "application/json"

  const StatusOK := 200
  const StatusBadRequest := 400
  const StatusForbidden := 403
  const StatusMethodNotAllowed := 405
  const StatusTeapot := 418

  /** The request body as the handler would find it: reading it fails, it is read but does not
      decode into the expected record, or it decodes into `payload`. */
  datatype Body<P> = Unreadable(cause: string) | Malformed(cause: string) | Decoded(payload: P)

  /** What a handler looks at: the method (`verb`), the `Content-Type` header, the session token header
      (`None` when the header is empty), the `CF-Connecting-IP` header and the body. */
  datatype Request<P> = Request(
    verb: string,
    contentType: string,
    authToken: Option<Token>,
    clientIP: string,
    body: Body<P>)

  /** A JSON body written to the client. */
  datatype Payload =
    | ErrorBody(error: ErrorResponse)
    | TokenBody(token: Token)
    | BinaryBody(binary: ProxyDownloadResponse)

  /** What the handler wrote: the status passed to `WriteHeader`, if it called it, and the
      encoded body, if any. */
  datatype Response = Response(status: Option<int>, body: Option<Payload>)

  /** The status the client receives: with no `WriteHeader` call `net/http` sends 200. */
  function WireStatus(r: Response): (code: int)
    ensures r.status.Some? ==> code == r.status.value
    ensures r.status.None? ==> code == StatusOK
  {
    if r.status.Some? then r.status.value else StatusOK
  }

  /** Everything one handler call does: the response, the log and report effects, the
      statements it sends to the store itself, and whether it read the request body. */
  datatype Outcome = Outcome(response: Response, effects: seq<Effect>, queries: seq<Query>, bodyRead: bool)

  /** Timing of the broker job of one auth lookup, in seconds after its submission: when the
      job is sent into the queue and when its result channel becomes ready, if ever. */
  datatype JobTiming = JobTiming(admissionDelay: Option<nat>, readyDelay: Option<nat>)

  /** The environment a handler runs against: what the store answers to each query it is
      sent, and when the broker admits and finishes the auth lookup job. */
  datatype Backend = Backend(
    auth: Query -> QueryOutcome<DBAuthData>,
    binaries: Query -> QueryOutcome<DBProxyBinaryResponse>,
    authJob: JobTiming)

  /** Every answer the store gives to a found query has a row. */
  ghost predicate Consistent(db: Backend) {
    && (forall q :: WellFormed(db.auth(q)))
    && (forall q :: WellFormed(db.binaries(q)))
  }

  /** A delay after `now` as a clock reading. */
  function After(now: int, delay: Option<nat>): (t: Option<int>)
    ensures t.Some? <==> delay.Some?
    ensures t.Some? ==> t.value == now + delay.value
  {
    if delay.None? then None else Some(now + delay.value)
  }

  /** The auth job is admitted and its result is ready before the deadline. */
  predicate LookupInTime(db: Backend) {
    && db.authJob.admissionDelay.Some? && db.authJob.admissionDelay.value < JobTimeout
    && db.authJob.readyDelay.Some? && db.authJob.readyDelay.value < JobTimeout
  }

  /** `database.ObtainAuth(key)` submitted at `now`: the job sends the auth query for the key
      and the broker delivers its result with the backend's timing. */
  function Lookup(db: Backend, key: string, now: int): (out: (DBAuthData, Option<APIError>))
    requires Consistent(db)
    ensures out.1.None? <==> db.auth(AuthQuery(key)).Rows? && LookupInTime(db)
    ensures out.1.None? ==> out.0 == db.auth(AuthQuery(key)).rows[0]
    ensures out.1.Some? ==> out.0 == EmptyAuthData
  {
    ObtainAuthAt(key, db.auth(AuthQuery(key)), now, After(now, db.authJob.admissionDelay), After(now, db.authJob.readyDelay))
  }

  /** The clock reading at which `database.ObtainAuth` returns to its caller: when the result
      became ready, if that was in time, and otherwise at the deadline, when the timer fires. */
  function LookupReturnedAt(db: Backend, now: int): (t: int)
    ensures now <= t <= Deadline(now)
    ensures LookupInTime(db) ==> t == now + db.authJob.readyDelay.value
    ensures !LookupInTime(db) ==> t == Deadline(now)
  {
    if LookupInTime(db) then now + db.authJob.readyDelay.value else Deadline(now)
  }

  /** An error answered to the client: its status and its message as the body. */
  function ErrorReply(err: APIError): (r: Response)
    ensures r.status == Some(StatusCode(err)) && r.body == Some(ErrorBody(ErrorResponse(err.message)))
  {
    Response(Some(StatusCode(err)), Some(ErrorBody(NewErrorResponse(err.message))))
  }
}

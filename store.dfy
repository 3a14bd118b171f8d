/** The two store lookups of database/auth_data.go and database/binary.go, and the `UpdateBinary`
    stub. The database client is abstracted to what a query comes back with: the query failed,
    the response could not be parsed, nothing matched, or the matching rows. `ObtainAuth` runs its
    query as a broker job, so its result is `RunJob`'s outcome unwrapped; `SearchForBinary` runs
    its query directly. */
module Store {
  import opened Wrappers
  import opened ApiErrors
  import opened Types
  import opened JobBroker

  /** What `DB.Query` followed by `surrealdb.UnmarshalRaw` yields. `Rows` stands for a
      response that was found, so it carries at least one row. */
  datatype QueryOutcome<R> = QueryErr(cause: string) | ParseErr(cause: string) | NotFound | Rows(rows: seq<R>)

  /** Found responses carry a row, as both lookups index the first one. */
  predicate WellFormed<R>(q: QueryOutcome<R>) {
    q.Rows? ==> q.rows != []
  }

  /** A statement sent to the store with its named parameters. */
  datatype Query = Query(statement: string, params: map<string, string>)

  const StatementObtainAuth: string := "SELECT * FROM oomphAuth WHERE key=$key;"
  const StatementFindBinary: string := "SELECT data FROM oomph_bins WHERE (os=$os && arch=$arch && branch=$branch);"

  const NotFoundKeyPrefix: string := "invalid authentication key ("
  const NotFoundBinaryPrefix: string := "could not find binary for binary "

  /** The auth query: the map cleared and then given only the key. */
  function AuthQuery(key: string): (q: Query)
    ensures q.statement == StatementObtainAuth
    ensures q.params.Keys == {"key"} && q.params["key"] == key
  {
    Query(StatementObtainAuth, map[]["key" := key])
  }

  /** The not-found message names the key, between the fixed prefix and a closing parenthesis. */
  function UnknownKeyMessage(key: string): (m: string)
    ensures |m| == |NotFoundKeyPrefix| + |key| + 1
    ensures m[..|NotFoundKeyPrefix|] == NotFoundKeyPrefix
    ensures m[|NotFoundKeyPrefix|..|NotFoundKeyPrefix| + |key|] == key && m[|m| - 1] == ')'
  {
    NotFoundKeyPrefix + key + ")"
  }

  /** What the job closure of `ObtainAuth` returns for the outcome of its query. */
  function AuthLookup(key: string, q: QueryOutcome<DBAuthData>): (v: Value<DBAuthData>)
    requires WellFormed(q)
    ensures v.Produced? <==> q.Rows?
    ensures q.Rows? ==> v.value == q.rows[0]
    ensures v.Failed? ==> (v.err.kind == DatabaseFailed <==> !q.NotFound?) && v.err.kind in {DatabaseFailed, UserFault}
    ensures q.QueryErr? ==> v == Failed(New(DatabaseFailed, "failed to query database for auth", Some(q.cause)))
    ensures q.ParseErr? ==> v == Failed(New(DatabaseFailed, "cannot parse auth response from database", Some(q.cause)))
    ensures q.NotFound? ==> v == Failed(New(UserFault, UnknownKeyMessage(key), None))
  {
    match q
    case QueryErr(cause) => Failed(New(DatabaseFailed, "failed to query database for auth", Some(cause)))
    case ParseErr(cause) => Failed(New(DatabaseFailed, "cannot parse auth response from database", Some(cause)))
    case NotFound => Failed(New(UserFault, UnknownKeyMessage(key), None))
    case Rows(rows) => Produced(rows[0])
  }

  /** `ObtainAuth` after `RunJob` returned `r`: the record with no error, or the zero record with
      the error unchanged. */
  function ObtainAuth(r: Result<DBAuthData, APIError>): (out: (DBAuthData, Option<APIError>))
    ensures r.Ok? ==> out == (r.value, None)
    ensures r.Err? ==> out == (EmptyAuthData, Some(r.error))
  {
    match r
    case Ok(dat) => (dat, None)
    case Err(e) => (EmptyAuthData, Some(e))
  }

  /** The whole of `ObtainAuth` for a lookup submitted at `submittedAt`, admitted at `admission`
      (if ever), whose query came back with `q`, the worker's result being ready at `readyAt` (if
      ever). */
  function ObtainAuthAt(key: string, q: QueryOutcome<DBAuthData>, submittedAt: int, admission: Option<int>,
                        readyAt: Option<int>): (out: (DBAuthData, Option<APIError>))
    requires WellFormed(q)
    // a record comes back only with no error, and it is the first row of the answer
    ensures out.1.None? ==> q.Rows? && out.0 == q.rows[0]
    ensures out.1.Some? ==> out.0 == EmptyAuthData
    // with no admission before the deadline the job never ran: the capacity error
    ensures !AdmittedInTime(submittedAt, admission) ==> out.1 == Some(CapacityError)
  {
    var arrival := if readyAt.None? then Pending else Delivered(readyAt.value, AuthLookup(key, q));
    ObtainAuth(RunJob(submittedAt, admission, arrival))
  }

  /** When the job is admitted and its result is ready in time, the lookup classifies the query
      outcome: a store failure is `DatabaseFailed` with the cause kept, an unknown key is
      `UserFault` naming the key, and a found key yields its first row with no error. */
  lemma ObtainAuthInTime(key: string, q: QueryOutcome<DBAuthData>, submittedAt: int, admittedAt: int, readyAt: int)
    requires WellFormed(q)
    requires admittedAt < Deadline(submittedAt) && readyAt < Deadline(submittedAt)
    ensures var out := ObtainAuthAt(key, q, submittedAt, Some(admittedAt), Some(readyAt));
      && (q.QueryErr? ==> out == (EmptyAuthData, Some(APIError(DatabaseFailed, "failed to query database for auth", Some(q.cause)))))
      && (q.ParseErr? ==> out == (EmptyAuthData, Some(APIError(DatabaseFailed, "cannot parse auth response from database", Some(q.cause)))))
      && (q.NotFound? ==> out == (EmptyAuthData, Some(APIError(UserFault, UnknownKeyMessage(key), None))))
      && (q.Rows? ==> out == (q.rows[0], None))
  {
  }

  /** A record comes back exactly when the key was found and the broker delivered in time;
      in every other case the record is the zero value and an error is present. */
  lemma ObtainAuthRecordIffFound(key: string, q: QueryOutcome<DBAuthData>, submittedAt: int, admission: Option<int>,
                                 readyAt: Option<int>)
    requires WellFormed(q)
    ensures var out := ObtainAuthAt(key, q, submittedAt, admission, readyAt);
      && (out.1.None? <==> q.Rows? && AdmittedInTime(submittedAt, admission)
                           && readyAt.Some? && readyAt.value < Deadline(submittedAt))
      && (out.1.None? ==> out.0 == q.rows[0])
      && (out.1.Some? ==> out.0 == EmptyAuthData)
  {
  }

  /** Broker failures reach the caller of `ObtainAuth` unchanged, with the zero record: no
      admission before the deadline is the capacity error, no result before it the time-out. */
  lemma ObtainAuthBrokerErrors(key: string, q: QueryOutcome<DBAuthData>, submittedAt: int, admission: Option<int>,
                               readyAt: Option<int>)
    requires WellFormed(q)
    ensures !AdmittedInTime(submittedAt, admission) ==>
      ObtainAuthAt(key, q, submittedAt, admission, readyAt) == (EmptyAuthData, Some(CapacityError))
    ensures AdmittedInTime(submittedAt, admission) && (readyAt.None? || readyAt.value >= Deadline(submittedAt)) ==>
      ObtainAuthAt(key, q, submittedAt, admission, readyAt) == (EmptyAuthData, Some(TimeoutError))
  {
  }

  /** The unknown key of the repository's test gets an error. */
  lemma UnknownKeyIsError(submittedAt: int)
    ensures ObtainAuthAt("thisIsAnInvalidKeyThatShouldNeverBeUsed", NotFound, submittedAt,
                         Some(submittedAt), Some(submittedAt)).1.Some?
  {
  }

  /** The binary query: the map cleared and then given exactly the three selectors. */
  function BinaryQuery(os: string, arch: string, branch: string): (q: Query)
    ensures q.statement == StatementFindBinary
    ensures q.params.Keys == {"os", "arch", "branch"}
    ensures q.params["os"] == os && q.params["arch"] == arch && q.params["branch"] == branch
  {
    Query(StatementFindBinary, map["os" := os, "arch" := arch, "branch" := branch])
  }

  /** The not-found message names the binary as `os_arch_branch`. */
  function UnknownBinaryMessage(os: string, arch: string, branch: string): (m: string)
    ensures m == NotFoundBinaryPrefix + (os + "_" + arch + "_" + branch)
    ensures |m| == |NotFoundBinaryPrefix| + |os| + |arch| + |branch| + 2
  {
    NotFoundBinaryPrefix + os + "_" + arch + "_" + branch
  }

  /** `SearchForBinary` for the outcome `q` of its query: the first row's data with no error, or
      the empty string with a `DatabaseFailed` (store failure, cause kept) or `UserFaultNeedsLog`
      (nothing matched) error. */
  function SearchForBinary(os: string, arch: string, branch: string, q: QueryOutcome<DBProxyBinaryResponse>)
    : (out: (string, Option<APIError>))
    requires WellFormed(q)
    ensures out.1.None? <==> q.Rows?
    ensures q.Rows? ==> out.0 == q.rows[0].data
    ensures out.1.Some? ==> out.0 == ""
    ensures q.QueryErr? ==> out.1 == Some(APIError(DatabaseFailed, "database query failed", Some(q.cause)))
    ensures q.ParseErr? ==> out.1 == Some(APIError(DatabaseFailed, "unable to parse response from database", Some(q.cause)))
    ensures q.NotFound? ==> out.1 == Some(APIError(UserFaultNeedsLog, UnknownBinaryMessage(os, arch, branch), None))
  {
    match q
    case QueryErr(cause) => ("", Some(New(DatabaseFailed, "database query failed", Some(cause))))
    case ParseErr(cause) => ("", Some(New(DatabaseFailed, "unable to parse response from database", Some(cause))))
    case NotFound => ("", Some(New(UserFaultNeedsLog, UnknownBinaryMessage(os, arch, branch), None)))
    case Rows(rows) => (rows[0].data, None)
  }

  /** The binary search does not go through the broker: its errors are only store failures
      and the not-found error, never capacity, time-out or closed-early; and it logs where the
      auth lookup's not-found does not. */
  lemma SearchErrorKinds(os: string, arch: string, branch: string, q: QueryOutcome<DBProxyBinaryResponse>)
    requires WellFormed(q)
    ensures var out := SearchForBinary(os, arch, branch, q);
      out.1.Some? ==> out.1.value.kind in {DatabaseFailed, UserFaultNeedsLog}
    ensures AuthLookup("", NotFound).err.kind != SearchForBinary(os, arch, branch, NotFound).1.value.kind
  {
  }

  /** `UpdateBinary` does nothing and never fails. */
  function UpdateBinary(os: string, arch: string, branch: string, data: string): (err: Option<APIError>)
    ensures err.None?
  {
    None
  }
}

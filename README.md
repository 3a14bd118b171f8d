# Oomph API gateway core, modelled in Dafny

This project models the gatekeeping core of the Oomph API. The API is a small HTTP service. Oomph
clients exchange a long-lived authentication key for a one-hour session token, and use that
token to download the Oomph proxy binary. An internal tool uploads new binaries with an admin
token; a non-admin who tries has its key deleted. The modelled parts are:

- **Error taxonomy** (`ApiErrors`, errors/error.go): the seven error kinds, `New`, `Error()` and
  `StatusCode()`. The kind is a full byte, so the default branch of the status switch is
  reachable. `Error()` has a reader as its partner, and a round-trip lemma recovers the message,
  the type number and the cause from the text.
- **Logging policy** (`Logging`, utils/log.go): `EndpointError` and `EndpointWarning` become
  the sequence of log and report effects they trigger.
- **Session tokens** (`Jwt`, jwt/token.go): the claim check `Valid`, the claims `NewAuthToken`
  signs, and the order of checks in `ValidateAuthToken`. The HS256 signature is an
  uninterpreted keyed MAC, `SecretKey.mac`, so a token is `Signed(claims, tag)` and is authentic
  exactly when `tag == mac(claims)`. `Parse` models what the golang-jwt library hands back.
- **Job broker** (`JobBroker`, database/job.go and database/worker.go), with runs of it in
  `BrokerRuns`:
  - The outcome of `RunJob`'s two `select`s is the pure function `RunJob`. It depends only on
    when, if ever, the job was admitted and when, if ever, its result channel became ready, each
    compared with the single deadline fixed at submission.
  - The shared state the goroutines change is a `Broker` class: the queue of capacity 64, the 64
    workers, the callers blocked on a full queue, the job pool and a clock.
  - Every step is a method: `Submit`, `Take`/`Finish` (one worker iteration, also `WorkerStep`),
    `Tick`, `Expire` and `Await`. `Await` is proved to produce exactly `RunJob`'s outcome.
- **Store lookups** (`Store`, database/auth_data.go and database/binary.go):
  - A query's outcome is `QueryErr | ParseErr | NotFound | Rows(rows)`.
  - `ObtainAuth` goes through the broker. `ObtainAuthAt` composes the job's classification with
    `RunJob`.
  - `SearchForBinary` queries directly. `UpdateBinary` is the stub it is.
- **Handlers** (`AuthEndpoints`, `BinaryEndpoints`, endpoint/authenticate.go and
  endpoint/binaries.go, over the records of `Http` and `Types`):
  - Each handler is a method from a request record to an `Outcome`. The outcome holds the
    status written (if `WriteHeader` was called), the body written, the log/report effects, the
    store statements the handler issued itself, and whether it read the request body.
  - The store and broker answers a handler depends on are a `Backend` value.

Some behaviour of the code differs from what its names and comments suggest. The model follows
the code:

- `SearchForBinary` queries the store directly (database/binary.go:32). `ObtainAuth` goes through
  `RunJob` (database/auth_data.go:20), but the binary search is not a broker job.
- `UpdateBinary` is documented as updating the stored binary (database/binary.go:17) but only
  returns nil (database/binary.go:18-20). The admin upload therefore writes nothing.
- A worker calls `job.Done()` right after its send (database/worker.go:22-23). So the job and its
  closed channel are back in the pool before the caller has received the value.
- A signed but incomplete claim set does not get `oldJWTError` (jwt/token.go:67-71). The library
  wraps `Valid`'s fresh error, so the comparison never holds, and the catch-all `ServerFault` at
  jwt/token.go:74-78 answers instead (see `Jwt.IncompleteClaimsAreServerFault`). The branch is
  kept as written.
- The time-out comment and message say "30 seconds" (database/job.go:71-74), but the deadline is
  10 seconds after submission (database/job.go:32). Both are kept as written.

## Model

| member | source | states |
|---|---|---|
| ApiErrors.KindValues | errors/error.go:8-16 | the kinds UserFault … DatabaseFailed are 0 … 6 in declaration order |
| ApiErrors.New | errors/error.go:31-37 | the type, message and cause of the error are exactly the arguments |
| ApiErrors.StatusCode | errors/error.go:48-61 | the range is {401, 408, 500, 503}; 401 iff UserFault, UserFaultNeedsLog or a kind above 6; 500 iff ServerFault, UnexpectedValue or DatabaseFailed; 408 iff TimedOut; 503 iff NoCapacity |
| ApiErrors.Decimal | errors/error.go:40 | `%d` of the type is a non-empty digit string without a leading zero |
| ApiErrors.DecimalRoundTrip | errors/error.go:40 | the digits `Decimal` prints denote the number printed |
| ApiErrors.ErrorText | errors/error.go:39-46 | the text begins with the message; with no cause it ends at the closing parenthesis |
| ApiErrors.ErrorTextReadsBack | errors/error.go:39-46 | reading `message (type)[: cause]` back yields the message, the type number and the cause, with the cause suffix present exactly when there is a cause |
| Logging.EndpointError | utils/log.go:20-32 | no effect iff UserFault; otherwise first an error line with `Error()`'s text; reported iff the kind is neither UserFault nor UserFaultNeedsLog, and any report carries the endpoint, client and error |
| Logging.EndpointWarning | utils/log.go:13-15 | always exactly one warning line with the endpoint, address and message |
| Logging.ReportedKinds | utils/log.go:26-31 | an error is reported iff its status is not 401 or its kind is unnamed |
| Logging.LoggedKinds | utils/log.go:21-24 | an error is logged iff its kind is not UserFault |
| Jwt.Valid | jwt/token.go:26-31 | fails iff the address or key is empty or the expiration is 0, with the fresh "old version " error |
| Jwt.NewAuthToken | jwt/token.go:37-50 | succeeds iff the key is usable; the token is signed over the caller's address, the record's key and admin flag and an expiry of now + 3600; otherwise the library's key error |
| Jwt.IssuedClaims | jwt/token.go:38-43 | the claims carry the caller's address, the record's key and admin flag and expire one hour after issue; they pass `Valid` iff the address and key are non-empty and the expiry is not 0 |
| Jwt.ForgedError | jwt/token.go:61-66 | an invalid signature is UserFaultNeedsLog "invalid JWT token" |
| Jwt.UnverifiableError | jwt/token.go:73-78 | any other parse failure is ServerFault "server unable to validate token" with the library error as cause |
| Jwt.Parse | jwt/token.go:55-57 | the library never returns `oldJWTError`; the signature error occurs iff the tag is wrong under a usable key; claims come back iff authentic and complete, and then they are the token's |
| Jwt.ClassifyParse | jwt/token.go:59-101 | the checks in order: signature, `oldJWTError`, other parse error, expiry (expiration ≤ now), address binding; claims iff parsed, unexpired and bound to the caller's address |
| Jwt.ValidateAuthToken | jwt/token.go:53-101 | claims come back iff the token is authentic, complete, unexpired and bound to the address, and they are exactly the signed claims |
| Jwt.IssuedTokenValidates | jwt/token.go:37-101 | a token issued for (record, address) validates within the hour at that address with the record's key and admin flag and that address |
| Jwt.ExpiredBeforeReplay | jwt/token.go:83-99 | from issue + 3600 on, the token gets the expiry error from any address, never the replay error |
| Jwt.ReplayRejected | jwt/token.go:93-99 | an unexpired token presented from another address gets the UserFaultNeedsLog replay error |
| Jwt.ForgedRejected | jwt/token.go:59-66 | claims with a tag the key did not produce are refused as forged, whatever they say |
| Jwt.IncompleteClaimsAreServerFault | jwt/token.go:67-78 | a signed but incomplete claim set reaches the catch-all ServerFault branch, not `oldJWTError` |
| Jwt.EmptyKeyTokenUnusable | jwt/token.go:26-31 | a token issued for an empty key or an empty address never validates |
| Types.NewErrorResponse | endpoint/types/error.go:7-9 | the response carries exactly the message |
| JobBroker.RunJob | database/job.go:32-77 | no admission before deadline = submission + 10 gives NoCapacity; no result before the deadline gives TimedOut; a closed empty channel gives UnexpectedValue; a delivered `*APIError` is returned as is; success iff admitted and delivered in time with a value, which is returned |
| JobBroker.DeadlineCoversBothPhases | database/job.go:49-76 | a job admitted in time whose result needs until the deadline or later is timed out; the wait is not restarted on admission |
| JobBroker.BrokerErrors | database/job.go:36-77 | every error is capacity, time-out, closed-early, or the job's own delivered error |
| JobBroker.Channel.constructor | database/job.go:31 | a new channel is empty, open and has never carried a value |
| JobBroker.Channel.Send | database/worker.go:22 | a send puts the one value in the buffer and makes the channel ready now |
| JobBroker.Channel.Close | database/job.go:23 | closing keeps the buffer, and makes the channel ready now unless it already was |
| JobBroker.Channel.Receive | database/job.go:52 | a receive on a channel that is closed or holds a value yields the buffered value and removes it, or yields nothing (`ok` false) from a closed empty channel; closed, ready time and send count unchanged |
| JobBroker.Job.constructor | database/job.go:10-14 | a new job has no work and no channel and is in the pool |
| JobBroker.Broker.constructor | database/worker.go:11-15 | start-up: exactly 64 idle workers, an empty queue and pool, clock 0 |
| JobBroker.Broker.Done | database/job.go:21-25 | clears the work, closes the channel keeping its contents, and appends the job to the pool |
| JobBroker.Broker.Submit | database/job.go:29-38 | the job is the pool's last one (or new), with the work and a fresh empty channel; it is appended to the queue if there is room (admitted now), else the caller is appended to the blocked callers; workers and clock unchanged |
| JobBroker.Broker.Prepare | database/job.go:29-31 | the pool's last job (or a new one), armed with the work and a fresh channel |
| JobBroker.Broker.Acquire | database/job.go:29 | the job most recently put back, removed from the pool, or a new job when the pool is empty |
| JobBroker.Broker.Arm | database/job.go:30-31 | the job gets the work and a new, fresh, empty channel; the call records the submission time |
| JobBroker.Broker.Enqueue | database/job.go:37-38 | with room in the queue the job is appended and admitted now |
| JobBroker.Broker.Block | database/job.go:36-39 | with a full queue the caller is appended to the blocked callers |
| JobBroker.Broker.Take | database/worker.go:21 | worker w takes the oldest queued job; the longest-blocked caller, if any, is admitted into the slot |
| JobBroker.Broker.Dispatch | database/worker.go:21 | the oldest queued job moves to worker w |
| JobBroker.Broker.Admit | database/job.go:37 | the longest-blocked caller's job is appended to the queue and admitted before its deadline |
| JobBroker.Broker.WorkerStep | database/worker.go:21-24 | one loop iteration: the oldest job runs once, its return value is the one value in its own channel, the channel is closed, and the job goes back to the pool |
| JobBroker.Broker.Finish | database/worker.go:22-23 | the running job's value is sent on its channel, then `Done`; the worker is idle again |
| JobBroker.Broker.Tick | database/job.go:32 | time moves on, never past a blocked caller's deadline |
| JobBroker.Broker.Expire | database/job.go:39-46 | at its deadline the longest-blocked caller gets NoCapacity, unadmitted, with its job back in the pool unrun and its channel closed and empty |
| JobBroker.Call.constructor | database/job.go:29-32 | a call records its job, the channel made for it and the submission time the deadline is fixed from; it is not yet admitted and has no outcome |
| JobBroker.Broker.Await | database/job.go:51-77 | once the channel is ready or the deadline has passed, the call's outcome is exactly `RunJob` of its submission, admission and what the channel shows; otherwise it keeps waiting; the channel's value is removed exactly when it is received before the deadline, and nothing else about the channel changes |
| JobBroker.Broker.Collect | database/job.go:52-69 | receiving from a channel ready before the deadline gives `RunJob`'s outcome and removes the buffered value; closed, ready time and send count unchanged |
| JobBroker.Broker.GiveUp | database/job.go:70-76 | the timer firing first gives the time-out error |
| BrokerRuns.Completes | database/job.go:68-69 | a job finished before the deadline returns its value |
| BrokerRuns.PassesThrough | database/job.go:63-66 | a job returning an `*APIError` returns exactly that error |
| BrokerRuns.DeadlineSpansBothWaits | database/job.go:70-76 | a job finished at or after submission + 10 is timed out although its value is in the channel |
| BrokerRuns.Overloaded | database/job.go:39-46 | with 64 busy workers and a full queue, the next caller gets NoCapacity and its job is pooled unrun, never queued |
| BrokerRuns.Reuse | database/job.go:29-31 | a pooled job is reused with a new channel, and each caller gets its own value |
| BrokerRuns.Serve | database/worker.go:21-24 | one request served end to end returns the work's value, and the job is back on top of the pool |
| Store.AuthQuery | database/auth_data.go:24-28 | the parameter map holds exactly `key` with the key, for the auth statement |
| Store.UnknownKeyMessage | database/auth_data.go:51 | "invalid authentication key (" then the key then ")" |
| Store.AuthLookup | database/auth_data.go:28-56 | a failed query or parse is DatabaseFailed with its cause; not found is UserFault naming the key; a found key gives the first row |
| Store.ObtainAuthAt | database/auth_data.go:18-63 | a record comes back only with no error and is then the answer's first row; with an error the record is the zero value; a job not admitted before the deadline gives the capacity error |
| Store.ObtainAuth | database/auth_data.go:59-62 | a broker or job error comes back with the zero record; otherwise the record and no error |
| Store.ObtainAuthInTime | database/auth_data.go:20-62 | admitted and ready in time, the lookup classifies the query outcome as above |
| Store.ObtainAuthRecordIffFound | database/auth_data.go:18-63 | no error iff the key was found and the broker delivered in time, and then the first row; every error comes with the zero record |
| Store.ObtainAuthBrokerErrors | database/auth_data.go:59-61 | capacity and time-out errors from the broker reach the caller unchanged |
| Store.UnknownKeyIsError | db_auth_test.go:18-22 | an unknown key gives an error |
| Store.BinaryQuery | database/binary.go:29-32 | the parameter map holds exactly os, arch and branch, for the binary statement |
| Store.UnknownBinaryMessage | database/binary.go:51 | "could not find binary for binary " then `os_arch_branch` |
| Store.SearchForBinary | database/binary.go:25-57 | no error iff found, and then the first row's data; a failed query or parse is DatabaseFailed with its cause; not found is UserFaultNeedsLog naming the binary; errors come with "" |
| Store.SearchErrorKinds | database/binary.go:32-54 | only DatabaseFailed and UserFaultNeedsLog arise (no broker errors), and not-found differs in kind from the auth lookup's |
| Store.UpdateBinary | database/binary.go:18-20 | never fails |
| Http.WireStatus | endpoint/binaries.go:75-89 | a handler that wrote no status sends 200 |
| Http.Lookup | endpoint/authenticate.go:73 | the handler's `ObtainAuth` with the auth query for the key: no error iff the key is found and the job is admitted and ready before the deadline, and then the first row; every error comes with the zero record |
| Http.LookupReturnedAt | database/job.go:32-77 | `ObtainAuth` returns when the result is ready if that is before the deadline, else at the deadline (submission + 10) |
| Http.ErrorReply | endpoint/authenticate.go:75-76 | an error is answered with its `StatusCode()` and its message |
| AuthEndpoints.Authenticate | endpoint/authenticate.go:30-112 | 405 for non-POST; 400 for a non-JSON content type, body unread; 500 logged and reported for an unreadable body; 400 and a warning for bad JSON; a failed lookup answers its error and applies the log policy; an address not on the list gets 401, logged; an unusable key is a logged ServerFault; 200 iff every check passes, with the token signed over the record's claims and issued no earlier than the lookup returned, so it expires at least an hour after the record was ready; no store statement of its own |
| AuthEndpoints.IssueTime | jwt/token.go:42 | the token's issue time is not before the lookup returned, and so not before the request arrived |
| AuthEndpoints.VerifySession | endpoint/authenticate.go:116-139 | no body ever; 405, 401 for a missing token, the validation error's status (logged by policy), or 200; 200 iff a POST with a token that validates |
| AuthEndpoints.LoginThenVerify | endpoint/authenticate.go:94-137 | the token a successful login hands out is accepted by the session check from the same address within the hour after it was issued |
| AuthEndpoints.EmptyAllowListRejects | endpoint/authenticate.go:81-91 | a record with an empty address list never admits a caller |
| BinaryEndpoints.RevokeQuery | endpoint/binaries.go:129-135 | the revocation DELETE whose parameter map holds exactly `key` |
| BinaryEndpoints.DownloadProxy | endpoint/binaries.go:30-95 | 405; 401 with a message for a missing token; the validation error with its status, logged by policy; 500 for an unreadable body; bad JSON or a failed search is logged and writes nothing (the client sees 200 with no body); otherwise exactly one binary query and 200 with the data; data only for a valid token and a decoded request |
| BinaryEndpoints.UploadProxy | endpoint/binaries.go:101-168 | 405; 403 for a missing token; the validation error unlogged; a non-admin gets exactly one DELETE of the claims' key and 418, body unread; for an admin, 500 logged for an unreadable body, 400 for bad JSON, otherwise 200; a key is revoked only on the non-admin path, and it is the token's own |
| BinaryEndpoints.LoginThenUpload | endpoint/binaries.go:119-139 | a non-admin's freshly issued token passes the upload's token check, and the upload revokes exactly that record's key with 418 |

## Left out

- Concurrency: goroutines, channel blocking, `select` races and `time.After` are replaced by a sequential broker with an explicit clock and explicit events (`Submit`, `Take`, `Finish`, `Tick`, `Expire`, `Await`); interleavings are not modelled.
- JobBroker.Broker.Take: a caller whose admission deadline has come is expired before any worker takes a job (Take's precondition, with `Expire` at the deadline); the tie between a send and the timer at the same instant is thus resolved for the timer.
- JobBroker.RunJob: a result that becomes ready exactly at the deadline counts as a time-out (the second `select`, database/job.go:51-77). Go would pick either ready case at random; the model always picks the timer, as in the first `select`.
- AuthEndpoints.Authenticate: the time the handler spends between the lookup's return and `NewAuthToken` reading the clock is a parameter `pause`; nothing is assumed about it beyond that it is not negative.
- JobBroker.Call: the channel the caller reads is the one it made at database/job.go:31; the re-read of `job.Result` at database/job.go:52 could only see another channel under an interleaving not modelled.
- JobBroker: the worker's loop ends only when the queue is closed, which the process never does; the model has no close of the queue.
- HMAC-SHA256 and the JWT wire encoding belong to the golang-jwt library; the signature is an uninterpreted MAC and parsing is the `ParseOutcome` datatype.
- SurrealDB's client and `UnmarshalRaw` are foreign; a query's outcome is a `QueryOutcome` value, and a found response carrying a row is a precondition (`WellFormed`, `Consistent`).
- `net/http`, JSON encoding/decoding, `io.ReadAll` and `ClientIP`'s header read: requests and responses are records, a body is `Unreadable | Malformed | Decoded`, and a missing token header is `None`.
- `sync.Pool` (internal/pool.go and the job pool): the job pool is a free list; the pooled parameter maps are built fresh, their contents modelled exactly.
- zerolog and Sentry output: only which effects occur, in order, is modelled.
- main.go, database/init.go and ssl_test.go (process set-up, environment, TLS dial) are not part of this model.
- utils/recovery.go (panic recovery) is not part of this model; handlers do not panic in the model.
- `AuthResponse` has no `RefreshAt` field, so the refresh time at endpoint/authenticate.go:110 is left out; the token body carries only the token.
- `errors.MessageKeyInvalidatedDueToMalice` and `types.HeaderAuthToken` are not defined in the files modelled; stand-in constants are used and nothing proved depends on their values.
- AuthEndpoints.Authenticate: the auth SELECT runs inside a broker job and is not listed in the handler's own `queries`; its effect is `Lookup`'s outcome.
- Claims' `int64` expiration and Unix seconds are unbounded integers; the wall clock is a parameter `now`.
- `DBAuthData.Expiration` is never consulted and no address is enrolled against an empty list, as in the code.
- The result of the revocation DELETE is ignored by the code and not modelled.

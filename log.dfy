/** The logging and reporting policy of utils/log.go, reduced to the effects it triggers. */
module Logging {
  import opened Wrappers
  import opened ApiErrors

  /** One observable effect: a log line at error or warning level, or a report to the
      crash-reporting service. `ip` is the client address the line is tagged with. */
  datatype Effect =
    | LogError(endpoint: string, ip: string, line: string)
    | LogWarning(endpoint: string, ip: string, line: string)
    | Report(endpoint: string, client: string, err: APIError)

  /** `EndpointError`: a user fault is swallowed; every other kind is logged with its error
      text; every kind but a user fault that needs a log is also reported. */
  function EndpointError(ip: string, err: APIError, endpoint: string): (effects: seq<Effect>)
    ensures effects == [] <==> err.kind == UserFault
    ensures err.kind != UserFault ==> effects[0] == LogError(endpoint, ip, ErrorText(err))
    ensures Reported(effects) <==> err.kind != UserFault && err.kind != UserFaultNeedsLog
    ensures forall i :: 0 <= i < |effects| && effects[i].Report? ==> effects[i] == Report(endpoint, ip, err)
  {
    if err.kind == UserFault then []
    else if err.kind == UserFaultNeedsLog then [LogError(endpoint, ip, ErrorText(err))]
    else
      var both := [LogError(endpoint, ip, ErrorText(err)), Report(endpoint, ip, err)];
      assert both[1].Report?;
      both
  }

  /** `EndpointWarning`: always one warning line. */
  function EndpointWarning(ip: string, endpoint: string, msg: string): (effects: seq<Effect>)
    ensures effects == [LogWarning(endpoint, ip, msg)]
  {
    [LogWarning(endpoint, ip, msg)]
  }

  predicate Reported(effects: seq<Effect>) {
    exists i :: 0 <= i < |effects| && effects[i].Report?
  }

  predicate Logged(effects: seq<Effect>) {
    exists i :: 0 <= i < |effects| && (effects[i].LogError? || effects[i].LogWarning?)
  }

  /** Which kinds reach the crash reporter, stated against the status mapping: every error
      with an internal-error, timeout or capacity status is reported, and of the errors with
      an unauthorized status only the unnamed kinds (above 6) are. */
  lemma ReportedKinds(ip: string, err: APIError, endpoint: string)
    ensures Reported(EndpointError(ip, err, endpoint)) <==>
      (StatusCode(err) != StatusUnauthorized || err.kind > DatabaseFailed)
  {
  }

  /** Every kind logs except a plain user fault. */
  lemma LoggedKinds(ip: string, err: APIError, endpoint: string)
    ensures Logged(EndpointError(ip, err, endpoint)) <==> err.kind != UserFault
  {
    var effects := EndpointError(ip, err, endpoint);
    if err.kind != UserFault {
      assert effects[0].LogError?;
    }
  }
}

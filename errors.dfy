/** The error taxonomy of errors/error.go: seven kinds, the constructor, the string form and
    the HTTP status mapping. */
module ApiErrors {
  import opened Wrappers

  /** Go's `byte`: the error type field holds any of 256 values, not only the seven named kinds. */
  newtype byte = x: int | 0 <= x < 256

  const UserFault: byte := 0
  const UserFaultNeedsLog: byte := 1
  const ServerFault: byte := 2
  const TimedOut: byte := 3
  const NoCapacity: byte := 4
  const UnexpectedValue: byte := 5
  const DatabaseFailed: byte := 6

  /** The kinds in declaration order; the position of a kind is its value. */
  const Kinds: seq<byte> := [UserFault, UserFaultNeedsLog, ServerFault, TimedOut, NoCapacity, UnexpectedValue, DatabaseFailed]

  /** `UnderlyingErr any` is kept as the text `%v` prints for it; nil is `None`. */
  datatype APIError = APIError(kind: byte, message: string, cause: Option<string>)

  const StatusUnauthorized := 401
  const StatusRequestTimeout := 408
  const StatusInternalServerError := 500
  const StatusServiceUnavailable := 503

  lemma KindValues()
    ensures forall i :: 0 <= i < |Kinds| ==> Kinds[i] as int == i
  {
  }

  function New(t: byte, msg: string, cause: Option<string>): (e: APIError)
    ensures e.kind == t && e.message == msg && e.cause == cause
  {
    APIError(t, msg, cause)
  }

  function StatusCode(e: APIError): (code: int)
    ensures code in {StatusUnauthorized, StatusRequestTimeout, StatusInternalServerError, StatusServiceUnavailable}
    ensures code == StatusUnauthorized <==> e.kind == UserFault || e.kind == UserFaultNeedsLog || e.kind > DatabaseFailed
    ensures code == StatusInternalServerError <==> e.kind in {ServerFault, UnexpectedValue, DatabaseFailed}
    ensures code == StatusRequestTimeout <==> e.kind == TimedOut
    ensures code == StatusServiceUnavailable <==> e.kind == NoCapacity
  {
    match e.kind
    case 0 | 1 => StatusUnauthorized
    case 2 | 5 | 6 => StatusInternalServerError
    case 3 => StatusRequestTimeout
    case 4 => StatusServiceUnavailable
    case _ => StatusUnauthorized
  }

  // ---- decimal rendering of `%d` ----

  predicate IsDigit(c: char) { '0' <= c <= '9' }

  predicate AllDigits(s: string) { forall i :: 0 <= i < |s| ==> IsDigit(s[i]) }

  function DigitChar(d: nat): (c: char)
    requires d < 10
    ensures IsDigit(c) && (c - '0') as int == d
  {
    ('0' as int + d) as char
  }

  /** `%d` of a non-negative number: most significant digit first, no leading zeros. */
  function Decimal(n: nat): (s: string)
    ensures |s| > 0 && AllDigits(s)
    ensures |s| > 1 ==> s[0] != '0'
  {
    if n < 10 then [DigitChar(n)] else Decimal(n / 10) + [DigitChar(n % 10)]
  }

  /** The number a digit string denotes (the reference reading of `Decimal`). */
  function DigitsValue(s: string): nat
    requires AllDigits(s)
  {
    if s == [] then 0 else DigitsValue(s[..|s| - 1]) * 10 + (s[|s| - 1] - '0') as int
  }

  lemma {:induction false} DecimalRoundTrip(n: nat)
    ensures DigitsValue(Decimal(n)) == n
  {
    if n >= 10 {
      var s := Decimal(n / 10) + [DigitChar(n % 10)];
      assert s[..|s| - 1] == Decimal(n / 10);
      DecimalRoundTrip(n / 10);
    }
  }

  // ---- APIError.Error ----

  function CauseSuffix(cause: Option<string>): string {
    match cause
    case None => ""
    case Some(c) => ": " + c
  }

  /** `message (type)` followed by `: cause` only when a cause is present. */
  function ErrorText(e: APIError): (s: string)
    ensures |s| >= |e.message| + 4
    ensures s[..|e.message|] == e.message
    ensures e.cause.None? ==> s[|s| - 1] == ')'
  {
    e.message + " (" + Decimal(e.kind as nat) + ")" + CauseSuffix(e.cause)
  }

  /** Length of the longest run of digits at the start of `s`. */
  function DigitRun(s: string): (n: nat)
    ensures n <= |s| && AllDigits(s[..n])
    ensures n < |s| ==> !IsDigit(s[n])
  {
    if s == [] || !IsDigit(s[0]) then 0
    else
      var k := DigitRun(s[1..]);
      assert s[..k + 1] == [s[0]] + s[1..][..k];
      k + 1
  }

  /** Reads an error string back, given the length of its message: the inverse of `ErrorText`. */
  function ReadErrorText(s: string, messageLength: nat): Option<(string, nat, Option<string>)> {
    if messageLength + 2 > |s| || s[messageLength..messageLength + 2] != " (" then None
    else
      var rest := s[messageLength + 2..];
      var k := DigitRun(rest);
      if k == 0 || k >= |rest| || rest[k] != ')' then None
      else
        var tail := rest[k + 1..];
        if tail == [] then Some((s[..messageLength], DigitsValue(rest[..k]), None))
        else if |tail| >= 2 && tail[..2] == ": " then Some((s[..messageLength], DigitsValue(rest[..k]), Some(tail[2..])))
        else None
  }

  lemma {:induction false} DigitRunStops(d: string, t: string)
    requires AllDigits(d) && (t == [] || !IsDigit(t[0]))
    ensures DigitRun(d + t) == |d|
  {
    if d != [] {
      assert (d + t)[1..] == d[1..] + t;
      DigitRunStops(d[1..], t);
    } else {
      assert d + t == t;
    }
  }

  /** The layout of an error string: the message, then " (", then the type's digits, a closing
      parenthesis and the cause suffix. */
  lemma ErrorTextLayout(e: APIError)
    ensures var s := ErrorText(e); var m := |e.message|;
      && m + 2 <= |s| && s[..m] == e.message && s[m..m + 2] == " ("
      && s[m + 2..] == Decimal(e.kind as nat) + (")" + CauseSuffix(e.cause))
  {
    var m := |e.message|;
    var tail := Decimal(e.kind as nat) + (")" + CauseSuffix(e.cause));
    assert ErrorText(e) == e.message + (" (" + tail);
  }

  /** Reading a string laid out like an error string after `m` characters of message. */
  lemma ReadLaidOut(s: string, m: nat, d: string, cause: Option<string>)
    requires AllDigits(d) && d != []
    requires m + 2 <= |s| && s[m..m + 2] == " (" && s[m + 2..] == d + (")" + CauseSuffix(cause))
    ensures ReadErrorText(s, m) == Some((s[..m], DigitsValue(d), cause))
  {
    var rest := s[m + 2..];
    var c := CauseSuffix(cause);
    DigitRunStops(d, ")" + c);
    assert rest[..|d|] == d;
    assert rest[|d|] == ')';
    assert rest[|d| + 1..] == c;
    if cause.Some? {
      assert c[..2] == ": " && c[2..] == cause.value;
    }
  }

  /** Round trip: the message, the type number and the cause can all be read back. */
  lemma ErrorTextReadsBack(e: APIError)
    ensures ReadErrorText(ErrorText(e), |e.message|) == Some((e.message, e.kind as nat, e.cause))
  {
    ErrorTextLayout(e);
    DecimalRoundTrip(e.kind as nat);
    ReadLaidOut(ErrorText(e), |e.message|, Decimal(e.kind as nat), e.cause);
  }
}

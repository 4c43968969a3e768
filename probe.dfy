/** Probing one endpoint and sorting what came back (monitor.go `checkSiteStatus`, the per-URL
    body of main.go's `recordMetrics`). No HTTP happens here: the probe's result is an input. */
module Probe {

  datatype Option<+T> = None | Some(value: T)

  /** What one GET of an endpoint produced. `err` stands for Go's `%v` rendering of the error. */
  datatype Outcome =
    | RequestFailed(err: string)    // http.NewRequest returned an error
    | TransportFailed(err: string)  // client.Do returned an error, the 10-second timeout included
    | Response(code: int)           // a response arrived carrying this status code

  /** The 2xx test of monitor.go:74 and main.go:166. */
  predicate IsSuccess(code: int) {
    200 <= code < 300
  }

  predicate Succeeded(o: Outcome) {
    o.Response? && IsSuccess(o.code)
  }

  /** The two paths a probe can take: recovery, or error with a reason string. */
  datatype Verdict = Healthy | Unhealthy(reason: string)

  /** Why a probe failed, as its reason string reports it. */
  datatype Cause = Unreachable(err: string) | BadStatus(code: int)

  const UnreachablePrefix: string := "unreachable: "
  const StatusPrefix: string := "returned status "

  function CauseOf(o: Outcome): Cause
    requires !Succeeded(o)
  {
    match o
    case RequestFailed(err) => Unreachable(err)
    case TransportFailed(err) => Unreachable(err)
    case Response(code) => BadStatus(code)
  }

  // ---------------------------------------------------------------------------
  // Go's `%d` for the status code, and reading it back

  predicate IsDigit(c: char) {
    '0' <= c <= '9'
  }

  predicate AllDigits(s: string) {
    forall i :: 0 <= i < |s| ==> IsDigit(s[i])
  }

  function DigitChar(d: nat): (c: char)
    requires d < 10
    ensures IsDigit(c) && (c as int) - ('0' as int) == d
  {
    (('0' as int) + d) as char
  }

  /** Decimal digits of `n`, most significant first, no leading zeros. */
  function NatToDecimal(n: nat): (s: string)
    ensures |s| > 0 && AllDigits(s)
    ensures |s| > 1 ==> s[0] != '0'
  {
    if n < 10 then [DigitChar(n)] else NatToDecimal(n / 10) + [DigitChar(n % 10)]
  }

  /** `fmt.Sprintf("%d", n)`: a minus sign before the digits of a negative number. */
  function IntToDecimal(n: int): string {
    if n < 0 then "-" + NatToDecimal(-n) else NatToDecimal(n)
  }

  function DigitsValue(s: string): nat
    requires AllDigits(s)
  {
    if s == [] then 0 else DigitsValue(s[..|s| - 1]) * 10 + ((s[|s| - 1] as int) - ('0' as int))
  }

  function ParseDecimal(s: string): Option<int> {
    if |s| > 0 && AllDigits(s) then Some(DigitsValue(s))
    else if |s| > 1 && s[0] == '-' && AllDigits(s[1..]) then Some(-(DigitsValue(s[1..]) as int))
    else None
  }

  lemma {:induction false} NatDecimalRoundTrip(n: nat)
    ensures DigitsValue(NatToDecimal(n)) == n
  {
    if n >= 10 {
      var s := NatToDecimal(n);
      assert s[..|s| - 1] == NatToDecimal(n / 10);
      NatDecimalRoundTrip(n / 10);
    }
  }

  /** Every status code printed into a reason can be read back unchanged. */
  lemma DecimalRoundTrip(n: int)
    ensures ParseDecimal(IntToDecimal(n)) == Some(n)
  {
    if n < 0 {
      var d := NatToDecimal(-n);
      assert ("-" + d)[1..] == d;
      assert !IsDigit('-');
      assert !AllDigits("-" + d) by { assert ("-" + d)[0] == '-'; }
      NatDecimalRoundTrip(-n);
    } else {
      NatDecimalRoundTrip(n);
    }
  }

  // ---------------------------------------------------------------------------
  // Reason strings

  function Reason(c: Cause): string {
    match c
    case Unreachable(err) => UnreachablePrefix + err
    case BadStatus(code) => StatusPrefix + IntToDecimal(code)
  }

  predicate HasPrefix(s: string, p: string) {
    |p| <= |s| && s[..|p|] == p
  }

  /** Reads the cause back out of a reason string. */
  function ParseReason(r: string): Option<Cause> {
    if HasPrefix(r, UnreachablePrefix) then Some(Unreachable(r[|UnreachablePrefix|..]))
    else if HasPrefix(r, StatusPrefix) then
      match ParseDecimal(r[|StatusPrefix|..])
      case Some(code) => Some(BadStatus(code))
      case None => None
    else None
  }

  lemma ReasonRoundTrip(c: Cause)
    ensures ParseReason(Reason(c)) == Some(c)
  {
    var r := Reason(c);
    match c
    case Unreachable(err) =>
      assert r[..|UnreachablePrefix|] == UnreachablePrefix;
      assert r[|UnreachablePrefix|..] == err;
    case BadStatus(code) =>
      assert r[..|StatusPrefix|] == StatusPrefix;
      assert r[0] != UnreachablePrefix[0];
      assert r[|StatusPrefix|..] == IntToDecimal(code);
      DecimalRoundTrip(code);
  }

  /** The classification `checkSiteStatus` makes: a 2xx response takes the recovery path; a
      request or transport error, or any other status, takes the error path, and the reason it
      carries names which of the two failures happened and, for a status, which code. */
  function Classify(o: Outcome): (v: Verdict)
    ensures v.Healthy? <==> Succeeded(o)
    ensures v.Unhealthy? ==> ParseReason(v.reason) == Some(CauseOf(o))
  {
    match o
    case RequestFailed(err) =>
      ReasonRoundTrip(Unreachable(err));
      Unhealthy(UnreachablePrefix + err)
    case TransportFailed(err) =>
      ReasonRoundTrip(Unreachable(err));
      Unhealthy(UnreachablePrefix + err)
    case Response(code) =>
      if IsSuccess(code) then Healthy
      else
        ReasonRoundTrip(BadStatus(code));
        Unhealthy(StatusPrefix + IntToDecimal(code))
  }
}

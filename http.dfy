/**
 * What both backends need from the HTTP library: status codes, their classes
 * (section 15 of RFC 9110) and the decimal text a status code prints as.
 */
module Http {
  import opened Basics

  /** The HTTP library only builds status codes in 100..999. */
  type StatusCode = c: int | 100 <= c <= 999 witness 200

  /** The success class 2xx (section 15.3 of RFC 9110). */
  predicate IsSuccess(status: StatusCode) {
    200 <= status <= 299
  }

  /** The server-error class 5xx (section 15.6 of RFC 9110). */
  predicate IsServerError(status: StatusCode) {
    500 <= status <= 599
  }

  function DigitChar(d: nat): (c: char)
    requires d < 10
    ensures '0' <= c <= '9'
    ensures c as int == '0' as int + d
  {
    assert "0123456789"[d] as int == '0' as int + d;
    "0123456789"[d]
  }

  function DigitValue(c: char): nat
    requires '0' <= c <= '9'
  {
    (c as int - '0' as int) as nat
  }

  predicate IsDecimal(s: string) {
    |s| > 0 && forall i :: 0 <= i < |s| ==> '0' <= s[i] <= '9'
  }

  /** Decimal rendering of a natural number, as `{}` formats integers. */
  function Decimal(n: nat): (s: string)
    ensures IsDecimal(s)
    ensures n < 10 <==> |s| == 1
    ensures |s| > 1 ==> s[0] != '0'
  {
    if n < 10 then [DigitChar(n)] else Decimal(n / 10) + [DigitChar(n % 10)]
  }

  /** Reads a string of decimal digits back as a number: the partner of `Decimal`. */
  function ParseDecimal(s: string): nat
    requires IsDecimal(s)
  {
    if |s| == 1 then DigitValue(s[0])
    else ParseDecimal(s[..|s| - 1]) * 10 + DigitValue(s[|s| - 1])
  }

  lemma DigitRoundTrip(d: nat)
    requires d < 10
    ensures DigitValue(DigitChar(d)) == d
  {
  }

  /** Decimal rendering loses nothing: parsing it gives the number back. */
  lemma {:induction false} DecimalRoundTrip(n: nat)
    ensures ParseDecimal(Decimal(n)) == n
  {
    if n < 10 {
      DigitRoundTrip(n);
    } else {
      var s := Decimal(n);
      assert s[..|s| - 1] == Decimal(n / 10);
      DecimalRoundTrip(n / 10);
      DigitRoundTrip(n % 10);
    }
  }

  /** Distinct numbers print differently. */
  lemma DecimalInjective(m: nat, n: nat)
    requires Decimal(m) == Decimal(n)
    ensures m == n
  {
    DecimalRoundTrip(m);
    DecimalRoundTrip(n);
  }

  /** How a status code prints: its three digits. */
  function StatusText(status: StatusCode): (s: string)
    ensures |s| == 3 && IsDecimal(s)
    ensures ParseDecimal(s) == status
  {
    DecimalRoundTrip(status);
    DecimalLength3(status);
    Decimal(status)
  }

  lemma DecimalLength3(n: nat)
    requires 100 <= n <= 999
    ensures |Decimal(n)| == 3
  {
    var q := n / 10;
    assert 10 <= q < 100;
    assert 1 <= q / 10 < 10;
    assert |Decimal(q / 10)| == 1;
  }

  /** The message both backends build for a response outside 2xx. */
  function HttpErrorMessage(status: StatusCode, body: string): (m: string)
    ensures |m| == 16 + |body| && m[..11] == "HTTP error " && m[14..16] == ": "
    ensures IsDecimal(m[11..14]) && ParseDecimal(m[11..14]) == status && m[16..] == body
  {
    var m := "HTTP error " + StatusText(status) + ": " + body;
    assert m[11..14] == StatusText(status);
    m
  }

  /**
   * What the server answered one request, as the backends observe it: the
   * send failed; or a status arrived together with what reading the body as
   * text, and what decoding it as JSON into `B`, would give. Only one of the
   * two readings is ever consumed. Errors are their message text.
   */
  datatype Reply<B> =
    | SendFailed(error: string)
    | Replied(status: StatusCode, text: Result<string, string>, json: Result<B, string>)

  /**
   * The steps both backends take before looking inside a reply: a failed send
   * propagates; a status outside 2xx reads the body as text and reports it
   * (or the failure to read it); a success decodes the JSON body.
   */
  function DecodeReply<B>(reply: Reply<B>): (r: Result<B, string>)
    ensures r.Success? <==> reply.Replied? && IsSuccess(reply.status) && reply.json.Success?
    ensures r.Success? ==> r.value == reply.json.value
    ensures reply.SendFailed? ==> r == Failure(reply.error)
    ensures reply.Replied? && !IsSuccess(reply.status) && reply.text.Success? ==>
              r == Failure(HttpErrorMessage(reply.status, reply.text.value))
    ensures reply.Replied? && !IsSuccess(reply.status) && reply.text.Failure? ==>
              r == Failure(reply.text.error)
    ensures reply.Replied? && IsSuccess(reply.status) && reply.json.Failure? ==>
              r == Failure(reply.json.error)
  {
    match reply
    case SendFailed(e) => Failure(e)
    case Replied(status, text, json) =>
      if !IsSuccess(status) then
        match text
        case Failure(e) => Failure(e)
        case Success(body) => Failure(HttpErrorMessage(status, body))
      else json
  }

  /** The error both backends return when a decoded reply holds no translation. */
  const NoResultsMessage := "No translation results returned"
}

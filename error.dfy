/**
 * The shared error taxonomy (src/error.rs): which failures are worth retrying,
 * how foreign failures convert into it, and the text each failure displays as.
 */
module Errors {
  import opened Basics
  import opened Http

  /** What error.rs asks of the HTTP library's transport error: its text and two flags. */
  datatype TransportError = TransportError(message: string, isTimeout: bool, isConnect: bool)

  datatype TranslationError =
    | NetworkError(cause: TransportError)
    | HttpError(status: StatusCode, body: string)
    | AuthenticationError(msg: string)
    | TimeoutError
    | MaxRetriesExceeded(attempts: U32, errors: seq<TranslationError>)
    | ServiceError(msg: string)
    | ConfigurationError(msg: string)
    | Other(msg: string)

  /**
   * Transient failures: the transport, a timeout, or a server-class
   * response (section 15.6 of RFC 9110). Everything else is final.
   */
  predicate IsRetryable(e: TranslationError)
    ensures IsRetryable(e) <==>
      e.NetworkError? || e.TimeoutError? || (e.HttpError? && 500 <= e.status <= 599)
  {
    match e
    case NetworkError(_) => true
    case HttpError(status, _) => IsServerError(status)
    case TimeoutError => true
    case _ => false
  }

  /** The variants that are never retried, whatever they carry. */
  lemma NeverRetryable(e: TranslationError)
    requires e.AuthenticationError? || e.ServiceError? || e.ConfigurationError?
          || e.Other? || e.MaxRetriesExceeded?
    ensures !IsRetryable(e)
  {
  }

  /** A client-class response (4xx) is final, like every status outside 5xx. */
  lemma ClientErrorNotRetryable(status: StatusCode, body: string)
    requires 400 <= status <= 499
    ensures !IsRetryable(HttpError(status, body))
  {
  }

  /** `From<reqwest::Error>`: a timeout or a network error; the connect case adds nothing. */
  function FromTransport(error: TransportError): (r: TranslationError)
    ensures r.TimeoutError? <==> error.isTimeout
    ensures !error.isTimeout ==> r == NetworkError(error)
    ensures IsRetryable(r)
  {
    if error.isTimeout then TimeoutError
    else if error.isConnect then NetworkError(error)
    else NetworkError(error)
  }

  /** `From<serde_json::Error>`: a final service error naming the parse failure. */
  function FromJson(message: string): (r: TranslationError)
    ensures r.ServiceError? && |r.msg| >= 20 && r.msg[..20] == "JSON parsing error: " && r.msg[20..] == message
    ensures !IsRetryable(r)
  {
    ServiceError("JSON parsing error: " + message)
  }

  /** `From<anyhow::Error>`: the message, kept as it is, under `Other`. */
  function FromAnyhow(message: string): (r: TranslationError)
    ensures r.Other? && r.msg == message
    ensures !IsRetryable(r)
  {
    Other(message)
  }

  /** The first line of an exhausted retry budget (without its newline). */
  function RetriesHeader(attempts: U32): string {
    "Max retries exceeded after " + Decimal(attempts) + " attempts"
  }

  /** One line of the per-attempt listing; attempts are numbered from 1. */
  function AttemptLine(number: nat, e: TranslationError): (s: string)
    decreases e, 2
  {
    "  Attempt " + Decimal(number) + ": " + Display(e) + "\n"
  }

  /** The text `Display::fmt` writes for an error. */
  function Display(e: TranslationError): string
    decreases e, 1
  {
    match e
    case NetworkError(cause) => "Network error: " + cause.message
    case HttpError(status, body) => HttpErrorMessage(status, body)
    case AuthenticationError(msg) => "Authentication error: " + msg
    case TimeoutError => "Request timeout"
    case MaxRetriesExceeded(attempts, errors) => RetriesHeader(attempts) + "\n" + Listing(errors, 1)
    case ServiceError(msg) => "Service error: " + msg
    case ConfigurationError(msg) => "Configuration error: " + msg
    case Other(msg) => "Error: " + msg
  }

  /** The listing of `errors`, numbering the first one `first`. */
  function Listing(errors: seq<TranslationError>, first: nat): (s: string)
    decreases errors, 0
  {
    if errors == [] then "" else AttemptLine(first, errors[0]) + Listing(errors[1..], first + 1)
  }

  /** The header names the attempt count in decimal, between two fixed phrases. */
  lemma HeaderReadsBack(attempts: U32)
    ensures var h := RetriesHeader(attempts);
            |h| > 36 && h[..27] == "Max retries exceeded after " && h[|h| - 9..] == " attempts"
            && IsDecimal(h[27..|h| - 9]) && ParseDecimal(h[27..|h| - 9]) == attempts
            && (|h| > 37 ==> h[27] != '0')
  {
    var h := RetriesHeader(attempts);
    assert h[27..|h| - 9] == Decimal(attempts);
    DecimalRoundTrip(attempts);
  }

  /**
   * An attempt line is the fixed word, the attempt number in decimal, a colon,
   * the error's own text, and a line break.
   */
  lemma AttemptLineReadsBack(number: nat, e: TranslationError)
    ensures var s := AttemptLine(number, e);
            var k := |Decimal(number)|;
            |s| == 13 + k + |Display(e)| && s[..10] == "  Attempt "
            && IsDecimal(s[10..10 + k]) && ParseDecimal(s[10..10 + k]) == number
            && s[10 + k..12 + k] == ": " && s[12 + k..|s| - 1] == Display(e) && s[|s| - 1] == '\n'
            && (k > 1 ==> s[10] != '0')
  {
    AttemptLayout(Decimal(number), Display(e));
    DecimalRoundTrip(number);
  }

  /** Where the parts of an attempt line sit, for any number text and error text. */
  lemma AttemptLayout(d: string, t: string)
    ensures var s := "  Attempt " + d + ": " + t + "\n";
            |s| == 13 + |d| + |t| && s[..10] == "  Attempt " && s[10..10 + |d|] == d
            && s[10 + |d|..12 + |d|] == ": " && s[12 + |d|..|s| - 1] == t && s[|s| - 1] == '\n'
  {
  }

  /** Listing a concatenation lists the parts one after the other, numbering on. */
  lemma {:induction false} ListingAppend(a: seq<TranslationError>, b: seq<TranslationError>, first: nat)
    ensures Listing(a + b, first) == Listing(a, first) + Listing(b, first + |a|)
  {
    if a == [] {
      assert a + b == b;
    } else {
      var line := AttemptLine(first, a[0]);
      assert (a + b)[0] == a[0];
      assert (a + b)[1..] == a[1..] + b;
      calc {
        Listing(a + b, first);
        line + Listing(a[1..] + b, first + 1);
        { ListingAppend(a[1..], b, first + 1); }
        line + (Listing(a[1..], first + 1) + Listing(b, first + |a|));
        (line + Listing(a[1..], first + 1)) + Listing(b, first + |a|);
      }
    }
  }

  lemma ListingSingle(e: TranslationError, number: nat)
    ensures Listing([e], number) == AttemptLine(number, e)
  {
    assert [e][1..] == [];
  }

  /** The listing splits around its i-th error (0-based), which is numbered i+1. */
  lemma ListingAt(errors: seq<TranslationError>, i: nat)
    requires i < |errors|
    ensures Listing(errors, 1)
         == Listing(errors[..i], 1) + (AttemptLine(i + 1, errors[i]) + Listing(errors[i + 1..], i + 2))
  {
    var before, after := errors[..i], errors[i + 1..];
    assert errors == before + ([errors[i]] + after);
    ListingAppend(before, [errors[i]] + after, 1);
    ListingAppend([errors[i]], after, i + 1);
    ListingSingle(errors[i], i + 1);
  }

  /**
   * The i-th error of the list (0-based) is printed as "Attempt i+1", after
   * the header and the lines of the errors before it, and before the lines
   * of those after it.
   */
  lemma AttemptLineAt(attempts: U32, errors: seq<TranslationError>, i: nat)
    requires i < |errors|
    ensures Display(MaxRetriesExceeded(attempts, errors))
         == RetriesHeader(attempts) + "\n" + Listing(errors[..i], 1)
            + AttemptLine(i + 1, errors[i]) + Listing(errors[i + 1..], i + 2)
  {
    DisplayRetries(attempts, errors);
    ListingAt(errors, i);
  }

  /** An exhausted-retry error prints its header line, then its listing. */
  lemma DisplayRetries(attempts: U32, errors: seq<TranslationError>)
    ensures Display(MaxRetriesExceeded(attempts, errors)) == RetriesHeader(attempts) + "\n" + Listing(errors, 1)
  {
  }

  /** Number of line breaks in a text. */
  function Newlines(s: string): nat {
    if s == [] then 0 else (if s[0] == '\n' then 1 else 0) + Newlines(s[1..])
  }

  lemma {:induction false} NewlinesAppend(a: string, b: string)
    ensures Newlines(a + b) == Newlines(a) + Newlines(b)
  {
    if a == [] {
      assert a + b == b;
    } else {
      assert (a + b)[1..] == a[1..] + b;
      NewlinesAppend(a[1..], b);
    }
  }

  lemma {:induction false} NoNewlines(s: string)
    requires forall i :: 0 <= i < |s| ==> s[i] != '\n'
    ensures Newlines(s) == 0
  {
    if s != [] {
      NoNewlines(s[1..]);
    }
  }

  lemma DecimalHasNoNewline(n: nat)
    ensures Newlines(Decimal(n)) == 0
  {
    NoNewlines(Decimal(n));
  }

  /** The fixed words of a listing line hold no line break. */
  lemma AttemptWordNoNewline()
    ensures Newlines("  Attempt ") == 0
  {
    NoNewlines("  Attempt ");
  }

  lemma SeparatorNoNewline()
    ensures Newlines(": ") == 0
  {
    NoNewlines(": ");
  }

  /** The start of a listing line, up to the error's text, holds no line break. */
  lemma AttemptPrefixNoNewline(digits: string)
    requires Newlines(digits) == 0
    ensures Newlines("  Attempt " + digits + ": ") == 0
  {
    AttemptWordNoNewline();
    SeparatorNoNewline();
    NewlinesAppend("  Attempt ", digits);
    NewlinesAppend("  Attempt " + digits, ": ");
  }

  /** A listing line is one line when the number and the text in it hold no line break. */
  lemma OneLine(digits: string, text: string)
    requires Newlines(digits) == 0 && Newlines(text) == 0
    ensures Newlines("  Attempt " + digits + ": " + text + "\n") == 1
  {
    var head := "  Attempt " + digits + ": ";
    AttemptPrefixNoNewline(digits);
    assert Newlines("\n") == 1 by {
      assert "\n"[1..] == [];
    }
    NewlinesAppend(head, text);
    NewlinesAppend(head + text, "\n");
  }

  /** An attempt line ends in the only line break it holds, when the error is single-line. */
  lemma AttemptLineIsOneLine(number: nat, e: TranslationError)
    requires Newlines(Display(e)) == 0
    ensures Newlines(AttemptLine(number, e)) == 1
  {
    DecimalHasNoNewline(number);
    OneLine(Decimal(number), Display(e));
  }

  /** When no listed error prints a line break itself, each one takes exactly one line. */
  lemma {:induction false} ListingLines(errors: seq<TranslationError>, first: nat)
    requires forall i :: 0 <= i < |errors| ==> Newlines(Display(errors[i])) == 0
    ensures Newlines(Listing(errors, first)) == |errors|
  {
    if errors != [] {
      AttemptLineIsOneLine(first, errors[0]);
      NewlinesAppend(AttemptLine(first, errors[0]), Listing(errors[1..], first + 1));
      ListingLines(errors[1..], first + 1);
    }
  }

  /**
   * An exhausted budget prints one header line and then one line per recorded
   * attempt, provided the recorded errors are single-line themselves.
   */
  lemma RetriesLines(attempts: U32, errors: seq<TranslationError>)
    requires forall i :: 0 <= i < |errors| ==> Newlines(Display(errors[i])) == 0
    ensures Newlines(Display(MaxRetriesExceeded(attempts, errors))) == |errors| + 1
  {
    var header := RetriesHeader(attempts);
    HeaderIsOneLine(attempts);
    NewlinesAppend(header, "\n");
    NewlinesAppend(header + "\n", Listing(errors, 1));
    ListingLines(errors, 1);
  }

  lemma HeaderIsOneLine(attempts: U32)
    ensures Newlines(RetriesHeader(attempts)) == 0
  {
    var d := Decimal(attempts);
    HeaderWordsNoNewline();
    CountWordNoNewline();
    DecimalHasNoNewline(attempts);
    NewlinesAppend("Max retries exceeded after ", d);
    NewlinesAppend("Max retries exceeded after " + d, " attempts");
  }

  lemma HeaderWordsNoNewline()
    ensures Newlines("Max retries exceeded after ") == 0
  {
    NoNewlines("Max retries exceeded after ");
  }

  lemma CountWordNoNewline()
    ensures Newlines(" attempts") == 0
  {
    NoNewlines(" attempts");
  }

  /** The position of each variant in the enum, to compare kinds of errors. */
  function VariantIndex(e: TranslationError): nat {
    match e
    case NetworkError(_) => 0
    case HttpError(_, _) => 1
    case AuthenticationError(_) => 2
    case TimeoutError => 3
    case MaxRetriesExceeded(_, _) => 4
    case ServiceError(_) => 5
    case ConfigurationError(_) => 6
    case Other(_) => 7
  }

  /** The first letter each variant's text starts with. */
  function LeadLetter(index: nat): char
    requires index < 8
  {
    "NHARMSCE"[index]
  }

  /** Each variant's text starts with its own fixed prefix. */
  lemma DisplayLead(e: TranslationError)
    ensures |Display(e)| > 0 && Display(e)[0] == LeadLetter(VariantIndex(e))
  {
    match e
    case NetworkError(cause) =>
      assert Display(e)[0] == "Network error: "[0];
    case HttpError(status, body) =>
      assert Display(e)[0] == Display(e)[..11][0];
    case AuthenticationError(msg) =>
      assert Display(e)[0] == "Authentication error: "[0];
    case TimeoutError =>
      assert Display(e)[0] == "Request timeout"[0];
    case MaxRetriesExceeded(attempts, errors) =>
      assert Display(e)[0] == RetriesHeader(attempts)[0];
    case ServiceError(msg) =>
      assert Display(e)[0] == "Service error: "[0];
    case ConfigurationError(msg) =>
      assert Display(e)[0] == "Configuration error: "[0];
    case Other(msg) =>
      assert Display(e)[0] == "Error: "[0];
  }

  /** Two errors of different kinds never print the same text. */
  lemma DisplayDistinguishesKinds(e1: TranslationError, e2: TranslationError)
    requires VariantIndex(e1) != VariantIndex(e2)
    ensures Display(e1) != Display(e2)
  {
    DisplayLead(e1);
    DisplayLead(e2);
  }
}

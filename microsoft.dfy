/**
 * The Microsoft backend (src/microsoft/mod.rs): a temporary token fetched
 * from the edge authentication endpoint with at most three attempts, cached
 * for the translator's lifetime, and the reading of a translate reply.
 */
module Microsoft {
  import opened Basics
  import opened Http

  datatype MicrosoftConfig = MicrosoftConfig(endpoint: string, concurrentLimit: nat)

  function DefaultConfig(): (c: MicrosoftConfig)
    ensures c.endpoint == "https://api-edge.cognitive.microsofttranslator.com"
    ensures c.concurrentLimit == 10
  {
    MicrosoftConfig("https://api-edge.cognitive.microsofttranslator.com", 10)
  }

  /** What the authentication endpoint answered one attempt. */
  datatype AuthReply =
    | Connected(status: StatusCode, body: Result<string, string>)   // the body as read as text
    | ConnectFailed(error: string)

  /** The number of attempts `authenticate` makes at most. */
  const MaxAuthAttempts: nat := 3
  /** The pause after a failed attempt when another one follows: five seconds. */
  const AuthRetryDelay: nat := 5_000

  /** An attempt that got a 2xx answer; its body is the token (or the failure to read it). */
  predicate Accepted(reply: AuthReply) {
    reply.Connected? && IsSuccess(reply.status)
  }

  /** The error an attempt that was not accepted leaves, if it is the last one. */
  function RejectionMessage(reply: AuthReply): (m: string)
    requires !Accepted(reply)
    ensures reply.Connected? ==>
              |m| == 58 && m[..55] == "Failed to authenticate with Microsoft Translator: HTTP "
              && IsDecimal(m[55..]) && ParseDecimal(m[55..]) == reply.status
    ensures reply.ConnectFailed? ==>
              |m| == 43 + |reply.error| && m[..43] == "Failed to connect to Microsoft Translator: "
              && m[43..] == reply.error
  {
    match reply
    case Connected(status, _) =>
      var m := "Failed to authenticate with Microsoft Translator: HTTP " + StatusText(status);
      assert m[55..] == StatusText(status);
      m
    case ConnectFailed(e) =>
      "Failed to connect to Microsoft Translator: " + e
  }

  const AuthFallbackMessage := "Failed to get Microsoft Translator authorization after retries"

  /** How many attempts authentication takes: up to the first accepted one, and at most three. */
  function AttemptsUsed(endpoint: nat -> AuthReply): (n: nat)
    ensures 1 <= n <= MaxAuthAttempts
    ensures forall k :: 0 <= k < n - 1 ==> !Accepted(endpoint(k))
    ensures n < MaxAuthAttempts ==> Accepted(endpoint(n - 1))
  {
    if Accepted(endpoint(0)) then 1 else if Accepted(endpoint(1)) then 2 else 3
  }

  /**
   * The outcome of authentication: the body of the first accepted attempt
   * (a failure to read it included), or else the third attempt's error.
   */
  function AuthResult(endpoint: nat -> AuthReply): (r: Result<string, string>)
    ensures var n := AttemptsUsed(endpoint);
            Accepted(endpoint(n - 1)) ==> r == endpoint(n - 1).body
    ensures var n := AttemptsUsed(endpoint);
            !Accepted(endpoint(n - 1)) ==> n == MaxAuthAttempts && r == Failure(RejectionMessage(endpoint(2)))
  {
    var last := endpoint(AttemptsUsed(endpoint) - 1);
    if Accepted(last) then last.body else Failure(RejectionMessage(endpoint(2)))
  }

  /** Only a 2xx answer with a readable body yields a token. */
  lemma AuthSucceedsOnlyWhenAccepted(endpoint: nat -> AuthReply)
    ensures AuthResult(endpoint).Success? <==>
              exists k :: 0 <= k < MaxAuthAttempts && Accepted(endpoint(k)) && endpoint(k).body.Success?
                          && forall j :: 0 <= j < k ==> !Accepted(endpoint(j))
  {
    var n := AttemptsUsed(endpoint);
    if AuthResult(endpoint).Success? {
      assert Accepted(endpoint(n - 1)) && endpoint(n - 1).body.Success?;
    }
  }

  /** Three failed attempts end authentication with the third attempt's error. */
  lemma AuthGivesUpAfterThree(endpoint: nat -> AuthReply)
    requires forall k :: 0 <= k < MaxAuthAttempts ==> !Accepted(endpoint(k))
    ensures AttemptsUsed(endpoint) == MaxAuthAttempts
    ensures AuthResult(endpoint) == Failure(RejectionMessage(endpoint(2)))
  {
  }

  /**
   * `authenticate`: counts three attempts down, returns the body of the first
   * 2xx answer at once (a failure to read it propagates, no retry), and sleeps
   * five seconds after every failed attempt but the last. `endpoint(k)` is the
   * answer to attempt `k`; `slept` is the time spent sleeping.
   */
  method Authenticate(endpoint: nat -> AuthReply) returns (r: Result<string, string>, attempts: nat, slept: nat)
    ensures attempts == AttemptsUsed(endpoint) && r == AuthResult(endpoint)
    ensures slept == (attempts - 1) * AuthRetryDelay
  {
    var authAttempts := MaxAuthAttempts;
    attempts, slept := 0, 0;
    while authAttempts > 0
      invariant 0 < authAttempts <= MaxAuthAttempts
      invariant attempts == MaxAuthAttempts - authAttempts
      invariant slept == attempts * AuthRetryDelay
      invariant forall k :: 0 <= k < attempts ==> !Accepted(endpoint(k))
    {
      authAttempts := authAttempts - 1;
      attempts := attempts + 1;
      match endpoint(attempts - 1) {
        case Connected(status, body) =>
          if IsSuccess(status) {
            match body {
              case Failure(e) =>
                return Failure(e), attempts, slept;
              case Success(token) =>
                return Success(token), attempts, slept;
            }
          } else if authAttempts <= 0 {
            return Failure(RejectionMessage(endpoint(attempts - 1))), attempts, slept;
          }
        case ConnectFailed(e) =>
          if authAttempts <= 0 {
            return Failure(RejectionMessage(endpoint(attempts - 1))), attempts, slept;
          }
      }
      slept := slept + AuthRetryDelay;
    }
    // the loop returns on its third attempt, so the fallback error is never reached
    assert false;
    r := Failure(AuthFallbackMessage);
  }

  /** The query string of a translate request. */
  function QueryParams(targetLang: string): (q: seq<(string, string)>)
    ensures |q| == 3 && q[1] == ("to", targetLang)
    ensures q[0] == ("api-version", "3.0") && q[2] == ("includeSentenceLength", "true")
  {
    [("api-version", "3.0"), ("to", targetLang), ("includeSentenceLength", "true")]
  }

  /** What one translation sends: the bearer token, the query, and the one text. */
  datatype TranslateRequest = TranslateRequest(bearerToken: string, query: seq<(string, string)>, texts: seq<string>)

  /**
   * Reading a translate reply, whose JSON body decodes to one list of
   * translated texts per item: the first translation of the first item.
   */
  function TranslationResult(reply: Reply<seq<seq<string>>>): (r: Result<string, string>)
    ensures r.Success? <==>
              DecodeReply(reply).Success? && |reply.json.value| > 0 && |reply.json.value[0]| > 0
    ensures r.Success? ==> r.value == reply.json.value[0][0]
    ensures DecodeReply(reply).Failure? ==> r == Failure(DecodeReply(reply).error)
    ensures DecodeReply(reply).Success? && (reply.json.value == [] || reply.json.value[0] == []) ==>
              r == Failure(NoResultsMessage)
  {
    match DecodeReply(reply)
    case Failure(e) => Failure(e)
    case Success(items) =>
      if |items| == 0 || |items[0]| == 0 then Failure(NoResultsMessage) else Success(items[0][0])
  }

  class MicrosoftTranslator {
    const config: MicrosoftConfig
    /** The cached token: absent until the first successful authentication, then kept. */
    var auth: Option<string>

    constructor(config: MicrosoftConfig)
      ensures this.config == config && auth == None
    {
      this.config := config;
      auth := None;
    }

    /**
     * One translation. The token comes from the cache, or, when the cache is
     * empty, from authentication, whose failure returns before anything is
     * stored or sent. `endpoint` answers the authentication attempts and
     * `reply` is the service's answer to the translate request.
     */
    method Translate(text: string, targetLang: string, endpoint: nat -> AuthReply, reply: Reply<seq<seq<string>>>)
      returns (r: Result<string, string>, authAttempts: nat, sent: Option<TranslateRequest>)
      modifies this`auth
      ensures old(auth).Some? ==> auth == old(auth) && authAttempts == 0
      ensures old(auth).None? ==> authAttempts == AttemptsUsed(endpoint)
      ensures old(auth).None? && AuthResult(endpoint).Failure? ==>
                auth == None && sent == None && r == Failure(AuthResult(endpoint).error)
      ensures old(auth).None? && AuthResult(endpoint).Success? ==> auth == Some(AuthResult(endpoint).value)
      ensures auth.Some? ==>
                sent == Some(TranslateRequest(auth.value, QueryParams(targetLang), [text]))
                && r == TranslationResult(reply)
    {
      authAttempts := 0;
      if auth.None? {
        var token, attempts, slept := Authenticate(endpoint);
        authAttempts := attempts;
        if token.Failure? {
          return Failure(token.error), authAttempts, None;
        }
        auth := Some(token.value);
      }
      var bearer := auth.value;
      sent := Some(TranslateRequest(bearer, QueryParams(targetLang), [text]));
      r := TranslationResult(reply);
    }
  }

  /**
   * Two translations on one translator: once a token is cached, the second
   * call authenticates no more and sends the identical token; when the first
   * authentication fails, nothing is cached and the second call tries again.
   */
  method TokenReuse(endpoint: nat -> AuthReply, laterEndpoint: nat -> AuthReply,
                    reply: Reply<seq<seq<string>>>, laterReply: Reply<seq<seq<string>>>)
    returns (first: Option<TranslateRequest>, second: Option<TranslateRequest>, secondAttempts: nat)
    ensures AuthResult(endpoint).Success? ==>
              first.Some? && second.Some? && secondAttempts == 0
              && first.value.bearerToken == second.value.bearerToken == AuthResult(endpoint).value
    ensures AuthResult(endpoint).Failure? ==>
              first == None && 1 <= secondAttempts == AttemptsUsed(laterEndpoint)
  {
    var translator := new MicrosoftTranslator(DefaultConfig());
    var r1, a1;
    r1, a1, first := translator.Translate("Hello", "zh", endpoint, reply);
    var r2;
    r2, secondAttempts, second := translator.Translate("Hello", "zh", laterEndpoint, laterReply);
  }
}

/**
 * Per-call options (src/options.rs): an optional timeout and a retry budget,
 * with by-value setters that each return an updated copy.
 */
module Options {
  import opened Basics

  /** A duration, in milliseconds. */
  type Millis = nat

  datatype TranslateOptions = TranslateOptions(timeout: Option<Millis>, maxRetries: U32)
  {
    /** Sets the timeout, leaving the retry budget alone. */
    function WithTimeout(d: Millis): (r: TranslateOptions)
      ensures r.timeout == Some(d) && r.maxRetries == maxRetries
    {
      this.(timeout := Some(d))
    }

    /** Disables the timeout, leaving the retry budget alone. */
    function NoTimeout(): (r: TranslateOptions)
      ensures r.timeout == None && r.maxRetries == maxRetries
    {
      this.(timeout := None)
    }

    /** Sets the retry budget, leaving the timeout alone. */
    function WithMaxRetries(n: U32): (r: TranslateOptions)
      ensures r.maxRetries == n && r.timeout == timeout
    {
      this.(maxRetries := n)
    }

    /** Disables retries: only the initial attempt is made. */
    function NoRetries(): (r: TranslateOptions)
      ensures r.maxRetries == 0 && r.timeout == timeout
    {
      this.(maxRetries := 0)
    }
  }

  /** Thirty seconds and three retries. */
  function Default(): (o: TranslateOptions)
    ensures o.timeout == Some(30_000) && o.maxRetries == 3
  {
    TranslateOptions(Some(30_000), 3)
  }

  /** `no_retries` is `max_retries(0)`, and `no_timeout` undoes any timeout set before. */
  lemma DisablingIsSettingToNothing(o: TranslateOptions, d: Millis)
    ensures o.NoRetries() == o.WithMaxRetries(0)
    ensures o.WithTimeout(d).NoTimeout() == o.NoTimeout()
  {
  }

  /** Setting a field twice keeps the last value; setting it to the same value twice is idempotent. */
  lemma SettersIdempotent(o: TranslateOptions, d1: Millis, d2: Millis, n1: U32, n2: U32)
    ensures o.WithTimeout(d1).WithTimeout(d2) == o.WithTimeout(d2)
    ensures o.WithMaxRetries(n1).WithMaxRetries(n2) == o.WithMaxRetries(n2)
    ensures o.NoTimeout().NoTimeout() == o.NoTimeout()
    ensures o.NoRetries().NoRetries() == o.NoRetries()
  {
  }

  /** Setters on different fields commute. */
  lemma SettersCommute(o: TranslateOptions, d: Millis, n: U32)
    ensures o.WithTimeout(d).WithMaxRetries(n) == o.WithMaxRetries(n).WithTimeout(d)
    ensures o.NoTimeout().WithMaxRetries(n) == o.WithMaxRetries(n).NoTimeout()
    ensures o.WithTimeout(d).NoRetries() == o.NoRetries().WithTimeout(d)
    ensures o.NoTimeout().NoRetries() == o.NoRetries().NoTimeout()
  {
  }

  /** The chain the examples use: one minute, five retries. */
  lemma ExampleChain()
    ensures Default().WithTimeout(60_000).WithMaxRetries(5) == TranslateOptions(Some(60_000), 5)
  {
  }
}

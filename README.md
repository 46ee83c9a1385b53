# async-translate, modelled in Dafny

async-translate is a Rust library that translates text through two backends.

- The **OpenAI backend** sends a chat-completion request. It rotates round-robin over a pool of API keys. Each key has its own requests-per-minute (RPM) window: before a request is sent, timestamps older than a minute are dropped, and when the window is full the call sleeps until the oldest request is a minute old.
- The **Microsoft backend** fetches a temporary token from the edge authentication endpoint, with three attempts and five-second pauses between them. It caches the token for the translator's lifetime.
- A **translation manager** maps names to translators and delegates to the one named.
- A shared **error taxonomy** says which failures are worth retrying and how each failure prints.
- **Per-call options** hold an optional timeout and a retry budget.

The model has one module per source file, plus three supporting modules:

| file | module | models |
|---|---|---|
| `basics.dfy` | `Basics` | `Option`, `Result`, the `u32` range |
| `http.dfy` | `Http` | status classes, decimal rendering of numbers and status codes, the `HTTP error {status}: {body}` message, the steps both backends take on a reply |
| `error.dfy` | `Errors` | `src/error.rs` |
| `options.dfy` | `Options` | `src/options.rs` |
| `manager.dfy` | `Manager` | `src/manager/mod.rs` |
| `rate_window.dfy` | `RateWindow` | the sliding window of `wait_for_rate_limit` as functions on timestamp lists, and the rate guarantee |
| `openai.dfy` | `OpenAI` | `src/openai/mod.rs`: the `KeyTracker` and `OpenAITranslator` classes |
| `microsoft.dfy` | `Microsoft` | `src/microsoft/mod.rs`: authentication, the token cache, reading a reply |

Conventions:

- Time is a monotonic clock in milliseconds.
- A method that reads the clock takes `now` as a parameter.
- A sleep of `wait` ends at `now + wait + lateness`. `lateness` is any extra delay of the runtime.
- Every error the library builds with `anyhow` is its message text, so a fallible call returns `Result<string, string>`.
- What the network answers is a parameter: the reply to a request, or the answer to each authentication attempt.

The rate-window proof keeps a ghost history of every time a key recorded. `RateWindow.Consistent` ties the list a tracker holds to that history. The invariant proved is `RateWindow.SpacedOut`: any `rpm + 1` consecutive admissions are at least a minute apart. `OpenAI.OpenAITranslator.WaitForRateLimit` preserves it, and `RateWindow.AtMostRpmPerMinute` derives the RPM ceiling from it. After a full window the held list reaches `rpm + 1` entries: the list is filtered again against the clock read before the sleep, so the entry that is now stale is not dropped (`src/openai/mod.rs:144`). For calls made one after another the ceiling still holds: only the length of the held list exceeds `rpm`, and the next call filters it down again. Concurrent callers are not covered (see "Left out").

What the code does, and the model with it:

- A Microsoft token is never expired or invalidated: once cached, it is used for the translator's lifetime (`src/microsoft/mod.rs:115-121`).
- Authentication pauses five seconds between attempts (`src/microsoft/mod.rs:102`).
- No code retries a failed translation or backs off. `TranslateOptions` only carries the numbers, and no backend reads them.
- Neither backend turns its failures into `TranslationError`. Both return `anyhow` messages.

## Model

| member | source | states |
|---|---|---|
| Http.Decimal | src/error.rs:60 | the text `{}` prints for a count is all decimal digits, a single digit exactly when the count is below ten, and never starts with `0` unless it is the single digit `0` |
| Http.DecimalRoundTrip | src/error.rs:60-62 | reading the printed digits back gives the number: printing loses nothing |
| Http.DecimalInjective | src/error.rs:60-62 | different counts print as different text |
| Http.StatusText | src/error.rs:53 | a status code prints as three decimal digits that read back as the code |
| Http.HttpErrorMessage | src/openai/mod.rs:220-224 | the message for a non-2xx reply is `HTTP error ` then the status digits, then `: `, then the body verbatim, and the status can be read back from it |
| Http.DecodeReply | src/openai/mod.rs:210-237 | a reply is decoded exactly when it arrived with a 2xx status and a JSON body that decodes; a non-2xx status with a readable body gives the HTTP error message; a failed send gives the send error, an unreadable body on a non-2xx reply gives the read error, and a 2xx body that does not decode gives the decode error |
| Errors.IsRetryable | src/error.rs:34-45 | retryable if and only if the error is a network error, a timeout, or an HTTP error with a 5xx status |
| Errors.NeverRetryable | src/error.rs:42-43 | authentication, service, configuration, other and exhausted-retry errors are never retryable |
| Errors.ClientErrorNotRetryable | src/error.rs:37-40 | an HTTP error with a 4xx status is not retryable |
| Errors.FromTransport | src/error.rs:84-94 | a transport error becomes a timeout exactly when it is one, and a network error carrying it otherwise (the connect case is no different); both are retryable |
| Errors.FromJson | src/error.rs:96-100 | a JSON failure becomes a non-retryable service error whose message is `JSON parsing error: ` followed by the parser's text |
| Errors.FromAnyhow | src/error.rs:102-106 | any other failure becomes a non-retryable `Other` error carrying its message unchanged |
| Errors.Display | src/error.rs:48-71 | the text of each variant: its fixed phrase and its payload; an exhausted-retry error prints its header line and one line per recorded error (its properties are stated by `Errors.DisplayLead`, `Errors.DisplayDistinguishesKinds`, `Errors.AttemptLineAt` and `Errors.RetriesLines`) |
| Errors.RetriesHeader | src/error.rs:60 | the header `Max retries exceeded after {attempts} attempts` (stated by `Errors.HeaderReadsBack` and `Errors.HeaderIsOneLine`) |
| Errors.HeaderReadsBack | src/error.rs:60 | the header is the fixed opening, the attempt count in decimal digits that read back as the count and have no leading zero, and ` attempts` |
| Errors.AttemptLine | src/error.rs:62 | the line `  Attempt {n}: {error}` (stated by `Errors.AttemptLineReadsBack` and `Errors.AttemptLineIsOneLine`) |
| Errors.AttemptLineReadsBack | src/error.rs:62 | an attempt line is `  Attempt `, the number in decimal digits that read back as the number and have no leading zero, `: `, the error's own text, and a line break |
| Errors.Listing | src/error.rs:61-63 | the attempt lines of the recorded errors in order, numbered from the given first number (stated by `Errors.ListingAppend`, `Errors.ListingAt` and `Errors.ListingLines`) |
| Errors.ListingAppend | src/error.rs:61-63 | listing two runs of errors is listing the first, then the second with its numbering continued |
| Errors.ListingAt | src/error.rs:61-63 | the listing splits around the error at 0-based index i, which is printed as attempt i+1 |
| Errors.AttemptLineAt | src/error.rs:59-65 | an exhausted-retry error prints its header line, then the lines of earlier attempts, then `  Attempt {i+1}: ` with the i-th error's own text, then the later attempts |
| Errors.AttemptLineIsOneLine | src/error.rs:62 | an attempt line holds exactly one line break when the error's own text holds none |
| Errors.ListingLines | src/error.rs:61-63 | a listing of single-line errors holds exactly one line per error |
| Errors.HeaderIsOneLine | src/error.rs:60 | the `Max retries exceeded after {n} attempts` header holds no line break |
| Errors.RetriesLines | src/error.rs:59-65 | an exhausted-retry error whose recorded errors are single-line prints exactly one more line than it has recorded errors |
| Errors.DisplayLead | src/error.rs:48-71 | every variant's text is non-empty and starts with its own fixed letter |
| Errors.DisplayDistinguishesKinds | src/error.rs:48-71 | errors of different kinds never print the same text |
| Options.Default | src/options.rs:14-21 | the defaults are a 30-second timeout and 3 retries |
| Options.TranslateOptions.WithTimeout | src/options.rs:25-28 | sets the timeout and leaves the retry budget alone |
| Options.TranslateOptions.NoTimeout | src/options.rs:31-34 | removes the timeout and leaves the retry budget alone |
| Options.TranslateOptions.WithMaxRetries | src/options.rs:37-40 | sets the retry budget and leaves the timeout alone |
| Options.TranslateOptions.NoRetries | src/options.rs:43-46 | sets the retry budget to zero and leaves the timeout alone |
| Options.DisablingIsSettingToNothing | src/options.rs:31-46 | `no_retries` equals `max_retries(0)`, and `no_timeout` undoes any earlier timeout |
| Options.SettersIdempotent | src/options.rs:25-46 | setting a field twice keeps the later value |
| Options.SettersCommute | src/options.rs:25-46 | setters of different fields commute |
| Options.ExampleChain | src/options.rs:14-40 | a one-minute timeout with five retries, built from the defaults, is exactly that value |
| Manager.NotFound | src/manager/mod.rs:50 | the error is `Translator '`, the name, then `' not found` |
| Manager.NotFoundInjective | src/manager/mod.rs:50 | different names give different not-found errors |
| Manager.TranslationManager.constructor | src/manager/mod.rs:20-24 | a new manager has no translators |
| Manager.TranslationManager.AddTranslator | src/manager/mod.rs:32-34 | registers the translator under the name, replacing any translator already there; other names are unchanged; re-adding a name adds no name |
| Manager.TranslationManager.HasTranslator | src/manager/mod.rs:103-105 | true exactly for registered names |
| Manager.TranslationManager.Lookup | src/manager/mod.rs:48-50 | yields the registered translator for a registered name, and the not-found error otherwise |
| Manager.TranslationManager.Translate | src/manager/mod.rs:47-53 | an unknown name fails with the not-found error; a known one returns what its translator returns for the text and target |
| Manager.TranslationManager.TranslateLangid | src/manager/mod.rs:66-72 | as `Translate`, through the translator's language-identifier entry point |
| Manager.TranslationManager.TranslateWithLangid | src/manager/mod.rs:86-92 | as `Translate`, passing the optional source language along |
| Manager.TranslationManager.EntryPointsShareLookup | src/manager/mod.rs:47-92 | the three entry points fail on the same names with the same error |
| Manager.TranslationManager.ListTranslators | src/manager/mod.rs:112-114 | returns each registered name exactly once and nothing else |
| Manager.ManagerScenario | src/manager/tests.rs:9-78 | the manager's own tests as assertions: a new manager lists nothing; after adding `mock` it lists one name, has `mock` and not `nonexistent`, translates through `mock`, and fails on `nonexistent` |
| RateWindow.Elapsed | src/openai/mod.rs:136-137 | the time since a timestamp, saturating at zero for a timestamp after the clock reading, as `Instant::duration_since` does |
| RateWindow.Retain | src/openai/mod.rs:131 | `retain` keeps no more than it had, and everything it keeps is less than a minute old |
| RateWindow.RetainMembers | src/openai/mod.rs:131 | `retain` keeps exactly the timestamps less than a minute old |
| RateWindow.RetainDropsPrefix | src/openai/mod.rs:131 | on timestamps in clock order, `retain` keeps a suffix, and every dropped timestamp is a minute old |
| RateWindow.RetainAllInWindow | src/openai/mod.rs:131 | when the oldest timestamp is inside the window, `retain` keeps everything |
| RateWindow.RetainIdempotent | src/openai/mod.rs:144 | filtering again against the same clock reading drops nothing more |
| RateWindow.OldestIsInWindow | src/openai/mod.rs:136-138 | after `retain`, the oldest kept timestamp is always less than a minute old, so the `elapsed < 60s` test always passes |
| RateWindow.WaitBounds | src/openai/mod.rs:134-139 | the sleep is at most a minute; it is positive exactly when tracking is on and the window is full; it ends when the oldest kept request turns a minute old |
| RateWindow.Admit | src/openai/mod.rs:120-155 | a time is recorded exactly when the RPM limit is on, no earlier than `now`, and it ends the new list; the sleep is at most a minute and none with RPM 0; after a sleep the recorded time is the clock read when it ends |
| RateWindow.AdmitOutcome | src/openai/mod.rs:120-155 | with RPM 0 nothing is recorded; with room in the window `now` is recorded without a wait; with a full window the time after the sleep is recorded, and the held list then has more than `rpm` entries |
| RateWindow.AtMostRpmPerMinute | src/openai/mod.rs:120-155 | in a spaced-out history, two admissions less than a minute apart are fewer than `rpm` places apart |
| RateWindow.WindowNeverOverfull | src/openai/mod.rs:131-134 | for a consistent tracker, the window at any later clock reading holds at most `rpm` requests |
| RateWindow.KeptIsRecentSuffix | src/openai/mod.rs:131 | what `retain` keeps of a consistent tracker is the newest part of its history, and everything older is a minute old |
| RateWindow.RecordKeepsConsistent | src/openai/mod.rs:145-153 | recording a time after at most `rpm` recent entries keeps the bookkeeping consistent, provided that with a full window the time lies a minute after the oldest entry |
| RateWindow.AdmitKeepsConsistent | src/openai/mod.rs:120-155 | one admission records a time no earlier than `now`, and appending it to the history keeps every `rpm + 1` consecutive admissions a minute apart |
| OpenAI.DefaultConfig | src/openai/mod.rs:29-40 | the default base URL, model `gpt-3.5-turbo`, no keys, RPM 60, concurrency 10, no custom prompt |
| OpenAI.SystemPrompt | src/openai/mod.rs:105-113 | a configured prompt is used verbatim; otherwise the fixed sentence that names the target language and ends in a full stop |
| OpenAI.DefaultPromptNamesTarget | src/openai/mod.rs:108-111 | different target languages give different default prompts |
| OpenAI.BuildRequest | src/openai/mod.rs:194-216 | the request carries the configured model, the selected key as bearer, and exactly a system message with the prompt and a user message with the text |
| OpenAI.ChatResult | src/openai/mod.rs:219-243 | success exactly when the reply decodes with at least one choice, giving the first choice's content; an empty choice list gives `No translation results returned`; other failures propagate |
| OpenAI.Advance | src/openai/mod.rs:100 | the cursor always stays on a key |
| OpenAI.AdvanceStep | src/openai/mod.rs:100 | the cursor moves to the next key, and back to the first after the last |
| OpenAI.Picks | src/openai/mod.rs:97-102 | `k` selections from a cursor give `k` indices, starting with the cursor, each on a key |
| OpenAI.PicksAt | src/openai/mod.rs:97-102 | until the cursor wraps, the i-th selection returns key `cursor + i`; the selection after the last key returns key 0 |
| OpenAI.RoundRobin | src/openai/mod.rs:97-102 | from cursor 0, n selections return every key once, in order, and the next selection returns key 0 |
| OpenAI.PicksSnoc | src/openai/mod.rs:97-102 | one more selection appends the key under the cursor and moves the cursor on by one key |
| OpenAI.RoundRobinScenario | src/openai/mod.rs:71-102 | a new translator asked for a key n + 1 times, through `GetNextKeyIndex`, returns every key once in key order and then key 0 |
| OpenAI.KeyTracker.constructor | src/openai/mod.rs:76-85 | a tracker holds an empty list when the RPM limit is on, and none when it is 0 |
| OpenAI.FreshTrackerValid | src/openai/mod.rs:76-80 | a fresh tracker satisfies the tracker invariant |
| OpenAI.OpenAITranslator.constructor | src/openai/mod.rs:71-94 | one fresh, distinct, valid tracker per key, in key order, and the cursor on key 0 |
| OpenAI.OpenAITranslator.GetNextKeyIndex | src/openai/mod.rs:97-102 | returns the cursor and advances it modulo the number of keys |
| OpenAI.OpenAITranslator.WaitForRateLimit | src/openai/mod.rs:120-155 | with tracking off, returns at once and changes nothing; otherwise the new list, the sleep and the recorded time are those of `RateWindow.Admit`, and the tracker invariant (the RPM guarantee) is kept |
| OpenAI.OpenAITranslator.Translate | src/openai/mod.rs:160-244 | with no keys, fails with `No API keys configured` and changes nothing; otherwise uses the key under the cursor, advances the cursor, updates only that key's tracker as `WaitForRateLimit` does (its held list becomes `RateWindow.Admit`'s list, and its history grows by exactly the recorded time), sends the prompt and the text, and returns `ChatResult` of the reply |
| Microsoft.DefaultConfig | src/microsoft/mod.rs:25-31 | the edge endpoint and concurrency 10 |
| Microsoft.AttemptsUsed | src/microsoft/mod.rs:76-103 | authentication makes one to three attempts; every attempt before the last was rejected; fewer than three attempts means the last was accepted |
| Microsoft.RejectionMessage | src/microsoft/mod.rs:86-100 | a rejected answer gives `Failed to authenticate with Microsoft Translator: HTTP ` and the status digits, which read back as the status; a failed connection gives `Failed to connect to Microsoft Translator: ` and the transport error verbatim |
| Microsoft.AuthResult | src/microsoft/mod.rs:76-100 | if the last attempt made was accepted, its body is the outcome; otherwise all three attempts were made and the outcome is the third attempt's rejection message |
| Microsoft.AuthSucceedsOnlyWhenAccepted | src/microsoft/mod.rs:86-89 | a token is obtained if and only if some attempt among the first three got a 2xx answer with a readable body, and every attempt before it was rejected |
| Microsoft.AuthGivesUpAfterThree | src/microsoft/mod.rs:90-100 | three rejected attempts end authentication with the third attempt's error |
| Microsoft.Authenticate | src/microsoft/mod.rs:76-105 | the outcome and the number of attempts are those of `AuthResult` and `AttemptsUsed`; it sleeps five seconds after every attempt but the last; the fallback error after the loop is unreachable |
| Microsoft.QueryParams | src/microsoft/mod.rs:134-138 | the query is `api-version=3.0`, `to=<target>`, `includeSentenceLength=true`, in that order |
| Microsoft.TranslationResult | src/microsoft/mod.rs:150-174 | success exactly when the reply decodes with a first item holding a translation, giving that translation; an empty list or an empty first item gives `No translation results returned`; other failures propagate |
| Microsoft.MicrosoftTranslator.constructor | src/microsoft/mod.rs:59-66 | a new translator has no token |
| Microsoft.MicrosoftTranslator.Translate | src/microsoft/mod.rs:110-175 | a cached token is reused without authenticating and is never replaced; with no token, authentication runs, its failure is returned with nothing cached or sent, and its token is cached; the request carries the token, the query and the text, and the result is `TranslationResult` of the reply |
| Microsoft.TokenReuse | src/microsoft/mod.rs:115-121 | after a successful first call, a second call authenticates no more and sends the same token; after a failed one, the second call authenticates again |

## Left out

- Http.StatusText: prints only the three digits of a status code. The HTTP library also appends the status's reason phrase (`404 Not Found`), which comes from that library's own table.
- Http.HttpErrorMessage: leaves out the reason phrase for the same reason, and so do `Errors.Display` (its `HttpError` arm) and `Http.DecodeReply`, which print through it.
- Microsoft.RejectionMessage: the `HTTP {status}` authentication error leaves out the reason phrase for the same reason.
- The per-key and per-translator semaphores (`concurrent_limit`) and every interleaving of concurrent calls are not modelled. The rate guarantee is proved for calls made one after another. `wait_for_rate_limit` releases its lock while it sleeps, so concurrent callers can interleave there, and the model does not cover that.
- The text of foreign errors (reqwest, serde_json, the `Display` of a transport error) is an opaque string parameter.
- The HTTP client, URLs, headers (`User-Agent`, `Content-Type`), JSON serialisation, the `temperature` field and `base_url` / `endpoint` concatenation are left out. The request is modelled as the values it carries.
- An error from acquiring a semaphore permit is left out: the semaphores are never closed.
- `src/translator.rs` (the trait and its default `translate_langid`, `translate_with_langid`), `src/lib.rs`, `src/main.rs` and the examples are not part of this model. The manager sees a translator as its three entry points.
- `TranslateOptions` is modelled as a value. No backend reads it, so it has no effect on any model of a translation.
- Token expiry, token invalidation and a retry engine with exponential backoff are not modelled, because the code contains none of them.
- `std::error::Error::source` for `TranslationError` is not modelled: it returns only the wrapped transport error, which is opaque here.

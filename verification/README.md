# CrptApi, modelled in Dafny

`CrptApi` is a Java client for the "Chestny Znak" (CRPT) marking API. Its one
public operation, `createDocumentOfRussianProduct`, turns a document into the
API's method payload and posts it. The post is authenticated, rate limited and
retried once:

- a bearer token comes from a token cache; on a miss the cache's loader runs a
  handshake: fetch a challenge (`uuid`, `data`), sign `data`, and exchange the
  signed challenge for a token;
- a token-bucket limiter (`BlockingTokenBucketRateLimiter`) must grant a
  permit before anything is sent;
- an answer of 401 invalidates the cached token and the request is rebuilt
  with a fresh token and sent exactly once more;
- the last answer decides the result. A status of 300 or more is a
  `STATUS_CODE_ERROR` carrying that status. A body that does not decode is a
  `FORMAT_ERROR`. A transport failure is an `IO_ERROR`.

The project has these modules:

- `TimeUnits` (`time_units.dfy`): the long range, and `TimeUnit.toMillis` with
  its saturation.
- `TokenBucket` (`token_bucket.dfy`): the limiter's arithmetic on values, one
  acquire iteration (`Attempt`), the acquire loop over clock readings
  (`RunAcquire`), interleaved callers (`Serve`), and the limiter's properties
  as lemmas.
- `RateLimiter` (`rate_limiter.dfy`): the limiter as a class whose fields
  `availableTokens` and `lastRefillTime` change in place. Each method is
  proved to change them exactly as the `TokenBucket` functions say.
- `Errors` (`errors.dfy`): `CrptApiException` and its two constructors.
- `Http` (`http.dfy`): requests, answers, the client's trace of exchanges and
  cache invalidations, and reading an answer (status check, then decode).
- `Documents` (`documents.dfy`): the document types and `preparePayload`.
- `Crpt` (`crpt_api.dfy`): the client as a class. Its fields are the token
  cache (a map) and the trace (a sequence of events). Its methods are the
  handshake, `getToken`, the send-and-retry step, `callPostApi` and
  `createDocumentOfRussianProduct`. Each method is proved equal to a function
  of the old cache and trace position (`Handshake`, `TokenLookup`,
  `AuthenticatedSend`, `RefreshingSend`, `PostCall`), and lemmas state what
  those functions do. The class invariant `Valid` says that every recorded
  send carries the transport's answer for its position.

The collaborators are parameters of the model:

- the HTTP transport is a function from a request and its position in the
  trace to an outcome (a response, or an I/O failure);
- Jackson is a set of encode and decode functions, each of which may fail;
- the signer returns the signed string or the message of its exception;
- the clock reading is a `now` parameter, and the acquire loop takes the
  successive readings it would make as a sequence.

## Model

| member | source | states |
|---|---|---|
| TimeUnits.ToMillis | src/main/java/com/voyachek/CrptApi.java:66 | The result fits a long. Milliseconds are kept as they are. Seconds are multiplied by 1000 while that fits and saturate at the long bounds beyond. Microseconds truncate to whole milliseconds. A positive duration in a unit of a millisecond or more never shrinks. |
| TokenBucket.Full | src/main/java/com/voyachek/CrptApi.java:63-69 | A new limiter holds exactly `capacity` tokens, which is within bounds, and its refill period starts at the construction time. |
| TokenBucket.WholePeriods | src/main/java/com/voyachek/CrptApi.java:110 | The refill count is the number of whole periods in the elapsed time: `k*period <= elapsed < (k+1)*period`. |
| TokenBucket.Refill | src/main/java/com/voyachek/CrptApi.java:105-114 | The bucket is unchanged exactly when at most one period has elapsed. Otherwise it holds `min(capacity, available + wholePeriods*refillTokens)` and its period restarts at `now`. A bucket within `0..capacity` stays within it and never loses tokens. |
| TokenBucket.RefillsNeeded | src/main/java/com/voyachek/CrptApi.java:122-123 | The ceiling division gives the least `k` whose `k*refillTokens` covers the shortfall (zero when there is no shortfall). |
| TokenBucket.WaitTime | src/main/java/com/voyachek/CrptApi.java:119-125 | The wait is `RefillsNeeded*period`. It is zero exactly when enough tokens are available, and otherwise at least one whole period. |
| TokenBucket.Attempt | src/main/java/com/voyachek/CrptApi.java:84-98 | One iteration admits exactly when the refilled bucket holds enough tokens. On admission it debits exactly `permits` and never goes negative. Otherwise the refilled bucket is kept and the caller sleeps for its positive wait time. Bounds are preserved. |
| TokenBucket.RunAcquire | src/main/java/com/voyachek/CrptApi.java:83-99 | The loop stops at the first admission. One sleep is taken per rejected iteration, none after admission, and every sleep is at least one refill period. Bounds are preserved. |
| TokenBucket.Serve | src/main/java/com/voyachek/CrptApi.java:84-95 | The locked parts of several callers' iterations (refill, then debit or refusal), in any serialised order, keep the shared bucket within `0..capacity`. |
| TokenBucket.FreshBucketAdmits | src/main/java/com/voyachek/CrptApi.java:397-399 | A freshly built limiter grants any request of at most `capacity` permits at its first iteration, whatever the clock reads. |
| TokenBucket.SleepSuffices | src/main/java/com/voyachek/CrptApi.java:97 | A caller whose request fits the capacity, and who sleeps strictly longer than the returned wait while nobody else takes tokens, is admitted at its next iteration. |
| TokenBucket.AdmittedAfterOneSleep | src/main/java/com/voyachek/CrptApi.java:83-99 | With such a sleep, `acquire` of a request within the capacity returns after at most one sleep. |
| TokenBucket.ExactWaitIsNotEnough | src/main/java/com/voyachek/CrptApi.java:109 | Because refill needs strictly more than one period, a caller that wakes exactly when the wait has elapsed is sent to sleep a second time (shown for capacity 1, period 1000 ms). |
| TokenBucket.NeverAdmitsBeyondCapacity | src/main/java/com/voyachek/CrptApi.java:83-99 | A request for more permits than the capacity is never granted, however many iterations run. |
| TokenBucket.ServeWithoutRefill | src/main/java/com/voyachek/CrptApi.java:105-114 | While every iteration falls within one period of the last refill, at most the tokens held at the start are granted and no refill fires. |
| TokenBucket.ServeWithinOnePeriod | src/main/java/com/voyachek/CrptApi.java:84-114 | Within any window of one refill period, at most `available + capacity` (so at most `2*capacity`) permits are granted in total. |
| TokenBucket.BurstAcrossRefill | src/main/java/com/voyachek/CrptApi.java:109-111 | The `2*capacity` bound is reached: a one-token bucket grants two permits within one millisecond across a refill. |
| RateLimiter.BlockingTokenBucketRateLimiter.constructor | src/main/java/com/voyachek/CrptApi.java:63-69 | The limiter keeps its parameters, converts the period to milliseconds and starts full at the construction time, within bounds. |
| RateLimiter.BlockingTokenBucketRateLimiter.RefillTokens | src/main/java/com/voyachek/CrptApi.java:105-114 | The fields become `TokenBucket.Refill` of the old fields, and the bounds invariant is kept. |
| RateLimiter.BlockingTokenBucketRateLimiter.CalculateWaitTime | src/main/java/com/voyachek/CrptApi.java:119-125 | The result is `TokenBucket.WaitTime` of the current token count, with the properties proved there. |
| RateLimiter.BlockingTokenBucketRateLimiter.TryAcquire | src/main/java/com/voyachek/CrptApi.java:85-97 | The locked refill and debit or refusal leave the fields that `TokenBucket.Attempt` gives, and keep the bounds invariant. On refusal the wait is the one computed from the state that locked part left. |
| RateLimiter.BlockingTokenBucketRateLimiter.Acquire | src/main/java/com/voyachek/CrptApi.java:83-99 | The loop ends with the fields, admission and sleeps that `TokenBucket.RunAcquire` gives for the same clock readings, and keeps the bounds invariant. |
| Errors.WithCause | src/main/java/com/voyachek/CrptApi.java:141-147 | An exception built from a cause has the given error code and status -1. |
| Errors.WithStatus | src/main/java/com/voyachek/CrptApi.java:149-152 | An exception built from a status is a `STATUS_CODE_ERROR` carrying that status. |
| Http.ReadResponse | src/main/java/com/voyachek/CrptApi.java:414-420 | Success holds exactly when the answer arrived with a status below 300 and its body decodes, and the value is the decoded body. An I/O failure gives `IO_ERROR`. A status of 300 or more gives a status error with that status. An undecodable body gives the caller's error code. Every error is well formed. |
| Documents.PreparePayload | src/main/java/com/voyachek/CrptApi.java:487-495 | Each payload field comes from its document field. Both `product_document` and `product_group` carry the document's `productDocument`. The signature is passed through. |
| Documents.PayloadIgnoresProductGroup | src/main/java/com/voyachek/CrptApi.java:491 | The document's own `productGroup` has no effect on the payload. |
| Documents.PayloadDeterminedBy | src/main/java/com/voyachek/CrptApi.java:487-495 | Two payloads are equal if and only if the documents agree on format, kind and `productDocument`, and the signatures are equal. |
| Crpt.SignChallenge | src/main/java/com/voyachek/CrptApi.java:472 | Signing succeeds exactly when the signer does. It keeps the challenge's `uuid` and replaces `data` by its signature. A signer failure propagates unchanged. |
| Crpt.CrptApi.constructor | src/main/java/com/voyachek/CrptApi.java:365-373 | The client's period is `timeUnit.toMillis(1)` (at least 1 ms). It starts with the given cache and an empty trace, so the invariant `Valid` holds. |
| Crpt.CrptApi.Send | src/main/java/com/voyachek/CrptApi.java:405 | The outcome is the transport's answer to the request at the current trace position. The exchange is appended to the trace, and `Valid` (every recorded send carries the transport's answer for its position) is kept. |
| Crpt.CrptApi.FetchCertKey | src/main/java/com/voyachek/CrptApi.java:497-513 | Exactly one unauthenticated GET of the challenge path is sent. The result is the answer read with undecodable bodies as `IO_ERROR`. |
| Crpt.CrptApi.FetchToken | src/main/java/com/voyachek/CrptApi.java:515-533 | If the signed challenge cannot be encoded, the result is `IO_ERROR` and nothing is sent. Otherwise exactly one unauthenticated POST of it goes to the token path, and its answer is read as for the challenge. |
| Crpt.CrptApi.Handshake | src/main/java/com/voyachek/CrptApi.java:468-481 | The loader's handshake at trace position `n`, on values: its result and the exchanges it makes, built from the transport, the JSON functions and the signer. Its own contract says it makes one or two exchanges. `HandshakeSteps` and `HandshakeExchanges` state each step, its fault and the token it yields. |
| Crpt.CrptApi.HandshakeExchanges | src/main/java/com/voyachek/CrptApi.java:468-481 | The handshake's exchanges carry no token, the challenge GET comes first, and each send carries the transport's answer for its position. |
| Crpt.CrptApi.HandshakeSteps | src/main/java/com/voyachek/CrptApi.java:468-481 | Each step's failure ends the handshake with that step's error and sends nothing more. A signer exception passes through unchanged. The token exchange posts the encoded signed challenge, and the result is its answer read with undecodable bodies as `IO_ERROR`. Every error is well formed. |
| Crpt.CrptApi.LoadToken | src/main/java/com/voyachek/CrptApi.java:468-481 | The result and the appended exchanges are exactly those of `Handshake` at the current trace position, whose steps `HandshakeSteps` and `HandshakeExchanges` state. `Valid` is kept. |
| Crpt.CrptApi.TokenLookup | src/main/java/com/voyachek/CrptApi.java:467-482 | `getToken` on a cache at trace position `n`, on values. Its own contract says a cached token costs no exchange. `TokenLookupResult` and `TokenLookupExchanges` state the hit and the miss, the cache update and the exchanges. |
| Crpt.CrptApi.TokenLookupResult | src/main/java/com/voyachek/CrptApi.java:467-482 | A cached token is returned with no exchange and no change. On a miss the result and exchanges are the handshake's, a handshake fault included. The cache gains the token exactly when the lookup succeeds, and is unchanged on a fault. |
| Crpt.CrptApi.TokenLookupExchanges | src/main/java/com/voyachek/CrptApi.java:467-482 | Nothing the lookup sends carries a token, and each send carries the transport's answer for its position. |
| Crpt.CrptApi.GetToken | src/main/java/com/voyachek/CrptApi.java:467-482 | The result, the appended exchanges and the new cache are those of `TokenLookup` on the old cache at the current trace position. `Valid` is kept. |
| Crpt.CrptApi.Delete | src/main/java/com/voyachek/CrptApi.java:409 | The key leaves the cache, nothing else changes in it, the invalidation is recorded, and `Valid` is kept. |
| Crpt.CrptApi.AuthenticatedSend | src/main/java/com/voyachek/CrptApi.java:403-405 | `makeApiPostRequest` and its send, on values: the token lookup, then the POST carrying the token (lines 438-445 build the request). Its own contract says a success is a recorded send. `AuthenticatedSendResult`, `AuthenticatedSendRecorded` and `AuthenticatedSendOnlyPost` state the request, its answer, the fault and the cache. |
| Crpt.CrptApi.AuthenticatedSendResult | src/main/java/com/voyachek/CrptApi.java:438-445 | When a token is obtained, the one send is the POST of the body to the URL carrying the token the cache now holds, with the transport's answer for its position; it follows the handshake exactly when no token was cached. When none is obtained, the handshake's fault is the result and the cache is unchanged. No other cache entry changes. |
| Crpt.CrptApi.AuthenticatedSendRecorded | src/main/java/com/voyachek/CrptApi.java:438-445 | Each send of the step carries the transport's answer for its position. |
| Crpt.CrptApi.AuthenticatedSendOnlyPost | src/main/java/com/voyachek/CrptApi.java:438-445 | The POST is the step's only exchange that carries a token, and there is none when no token is obtained. |
| Crpt.CrptApi.SendAuthenticated | src/main/java/com/voyachek/CrptApi.java:438-445 | The result, the appended exchanges and the new cache are those of `AuthenticatedSend` on the old cache at the current trace position. `Valid` is kept. |
| Crpt.CrptApi.RefreshingSend | src/main/java/com/voyachek/CrptApi.java:403-412 | The send with one token refresh on 401, on values. Its own contract says an answer needs a first send that obtained a token. `RefreshSends`, `RetryCallShapes`, `RetryAnswer`, `RefreshAfterUnauthorized`, `RefreshFault`, `RefreshingSendRecorded` and `RefreshingSendCache` state the sends, their order, the answer, the faults and the cache. |
| Crpt.CrptApi.RefreshSends | src/main/java/com/voyachek/CrptApi.java:403-412 | There are at most two authenticated sends, of the same URL and body. None happens exactly when the first token lookup fails. A second send happens only after a 401, and the first one uses the cached token. An answer is returned exactly when the sends settled, and it is the last send's outcome, made with the token the cache now holds. |
| Crpt.CrptApi.RetryCallShapes | src/main/java/com/voyachek/CrptApi.java:403-412 | After a 401 there are one or two sends of the same URL and body; the first was the 401 and carried the cached token. |
| Crpt.CrptApi.RetryAnswer | src/main/java/com/voyachek/CrptApi.java:407-411 | After a 401 an answer is returned exactly when the resend was made, and it is the resend's outcome, made with the token the cache now holds. |
| Crpt.CrptApi.RefreshAfterUnauthorized | src/main/java/com/voyachek/CrptApi.java:407-411 | After a 401 the token is invalidated first. A new handshake then runs, and its exchanges come next. The resend carries the token that handshake returned, and its answer is the result. If the handshake fails, its fault is the result, nothing more is sent, and no token stays cached. |
| Crpt.CrptApi.RefreshFault | src/main/java/com/voyachek/CrptApi.java:403-412 | A call with no authenticated send fails with the first handshake's fault. A call whose single send was a 401 fails with the fault of the handshake that directly follows the invalidation. |
| Crpt.CrptApi.RefreshingSendRecorded | src/main/java/com/voyachek/CrptApi.java:403-412 | Each send of the retry carries the transport's answer for its position. |
| Crpt.CrptApi.RefreshingSendCache | src/main/java/com/voyachek/CrptApi.java:403-412 | No cache entry but the token changes, and every error is well formed. |
| Crpt.CrptApi.SendWithTokenRefresh | src/main/java/com/voyachek/CrptApi.java:403-412 | The result, the appended exchanges and the new cache are those of `RefreshingSend` on the old cache at the current trace position. `Valid` is kept. |
| Crpt.CrptApi.PostCall | src/main/java/com/voyachek/CrptApi.java:393-436 | `callPostApi` once its permit is granted, on values. Its own contract says an unencodable payload sends nothing and leaves the cache as it was. `PostCallAnswer`, `PostCallSends` and `PostCallFault` state the result, the sends and the faults. |
| Crpt.CrptApi.PostCallAnswer | src/main/java/com/voyachek/CrptApi.java:393-436 | An unencodable payload gives `FORMAT_ERROR`, with nothing sent and the cache unchanged. Otherwise at most two sends post the encoded payload to the URL. Success implies the sends settled, and a settled call's result is the last answer read with undecodable bodies as `FORMAT_ERROR`. |
| Crpt.CrptApi.PostCallSends | src/main/java/com/voyachek/CrptApi.java:401-420 | With an encoded payload, the call's exchanges and cache are the retry's. A retry fault is the result, and otherwise the answer is read with undecodable bodies as `FORMAT_ERROR`. |
| Crpt.CrptApi.PostCallFault | src/main/java/com/voyachek/CrptApi.java:401-424 | A call with no authenticated send fails with the first handshake's fault. A call whose single send was a 401 fails with the fault of the handshake that directly follows the invalidation. |
| Crpt.CrptApi.CallPostApi | src/main/java/com/voyachek/CrptApi.java:393-436 | A freshly built limiter admits the call at once. The result, the appended exchanges and the new cache are then those of `PostCall` on the old cache at the current trace position. `Valid` is kept. |
| Crpt.CrptApi.CreateDocumentSends | src/main/java/com/voyachek/CrptApi.java:454-462 | Every authenticated send posts the encoded `preparePayload` to the create path. Success means the last answer had a status below 300 and decoded to the returned id. A settled last answer of 300 or more gives a status error with that status. |
| Crpt.CrptApi.CreateDocumentOfRussianProduct | src/main/java/com/voyachek/CrptApi.java:454-462 | The result, the appended exchanges and the new cache are those of `PostCall` for the create path with the encoded `preparePayload`, whose properties `CreateDocumentSends` states. `Valid` is kept. |

## Behaviour as written

The code behaves as follows in these places, and the model does the same:

- Any status of 300 or more is an error, not only 4xx and 5xx.
- A refill fires only when strictly more than one period has elapsed
  (`TokenBucket.ExactWaitIsNotEnough`).
- `callPostApi` builds a new limiter with capacity 10 on every call. So its
  first `acquire` always succeeds at once (`TokenBucket.FreshBucketAdmits`),
  and calls are not limited across one another. The limiter is given
  `periodMillis` in seconds, so its refill period is `1000 * periodMillis` ms.
- Inside the token loader, an undecodable challenge or token body is an
  `IO_ERROR`, because Jackson's exception is an `IOException` and the loader
  catches only that. In `callPostApi` the same failure is a `FORMAT_ERROR`.
- `preparePayload` fills `product_group` from `productDocument`
  (`Documents.PayloadIgnoresProductGroup`).
- The limiter bounds the permits granted within one refill period by the
  tokens held plus one capacity, so by twice the capacity, and not by one
  capacity (`TokenBucket.ServeWithinOnePeriod`, `TokenBucket.BurstAcrossRefill`).
- `CONNECTION_ERROR` is declared but never produced.

## Left out

- Metrics (the success and failure counters and the timer of
  `callPostApiWithMetrics`) and logging: they do not affect results. The
  failure counter is not incremented for status errors, and the success
  counter is never incremented.
- `InterruptedException` and its wrapping in `CompletionException`: a sleep is
  returned as a duration, not performed, so nothing can interrupt it.
- Concurrency: the limiter's lock, and the cache's single-flight loading.
  The lock serialises only the refill and the debit or refusal of each
  iteration, and `TokenBucket.Serve` models any serialised order of those.
- RateLimiter.BlockingTokenBucketRateLimiter.TryAcquire: the wait is computed
  from the token count that the iteration's own locked part left. In the
  Java code `calculateWaitTime` runs after `lock.unlock()` and reads
  `availableTokens` without the lock. Under contention, another caller may
  change the count first, so the sleep may be shorter or longer, and even 0
  (an immediate retry).
- The Caffeine cache's expiry (10 hours) and size bound (100). The cache is a
  map with get-or-compute and delete.
- URI building from protocol and host, request headers, the `AppConfig`
  getters and setters, and `requestLimit`, which the client never reads.
- Jackson's mapping: it is a set of abstract encode and decode functions that
  may fail.
- Jackson's null results. Each decoder either fails or yields a value, and
  never yields null. In the Java code, a token answer of `{}` or
  `{"token":null}` decodes to a null token (line 475). The Caffeine cache
  does not store a null value, so `makeApiPostRequest` sends
  `Authorization: Bearer null`, and the next call runs the handshake again.
  A challenge or token body of `null` makes `readValue` return null, and
  line 472 or 475 then throws a `NullPointerException` that escapes
  unwrapped. The model has no null token and no such exception: these
  answers are read as `IO_ERROR` or as a token, and `TokenLookup` caches
  every token it obtains.
- `CryptoSignFake` and `Main.main`: the signer is a parameter.
- The constant holder classes and `toString` methods.
- TokenBucket.Refill: does not model Java's `long` overflow in
  `refillCount * refillTokens` or in the elapsed time, because the model's
  integers are unbounded.
- TokenBucket.WaitTime: does not model `long` overflow in
  `refillsNeeded * refillPeriodMillis`, for the same reason.
- RateLimiter.BlockingTokenBucketRateLimiter.constructor: requires a
  non-negative capacity, a positive refill amount and a positive period. The
  Java code accepts others, and a zero period then divides by zero.
- RateLimiter.BlockingTokenBucketRateLimiter.Acquire: permits are natural
  numbers. A negative `int` would always be admitted and would add tokens.
  The loop runs over a finite sequence of clock readings, and a caller still
  blocked when they run out is reported as not admitted.
- Crpt.CrptApi.constructor: requires a client time unit of at least a
  millisecond. With a smaller unit `periodMillis` is 0, so the per-call
  limiter's period is 0, and its refill divides by zero as soon as any time
  has elapsed.

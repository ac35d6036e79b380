# Rate-limit retry helper for an HTTP client — Dafny model

The modelled module, `src/utils.js`, holds three helpers that an HTTP client's
error interceptor calls in turn on a failed request:

- `isRetryable(error)` decides whether the failure is a rate-limit response
  worth retrying: a response is present, its status is exactly 429 (Too Many
  Requests, section 4 of RFC 6585) and its `retry-after` header is truthy;
- `wait(error)` returns a promise that resolves after a timer whose delay is
  the raw `retry-after` value;
- `retry(client, error)` re-throws the error when it carries no request
  configuration, and otherwise calls the client once with that configuration
  and returns the client's result.

All three are pure apart from the timer and the client call, so the model is
functions and lemmas over values:

- `wrappers.dfy` — `Option`, for a property that may be undefined.
- `headers.dfy` — the response's header object: its own properties as a
  sequence of name/value entries with distinct names, JavaScript truthiness of
  a header value (numbers and strings), the literal property read `Get`, and
  the dictionary view `HeaderMap` it agrees with.
- `utils.dfy` — errors and responses, `IsRetryable`, the delay read by `wait`
  (`Delay`) and `Retry`. An evaluation that reads a property of `undefined` yields
  `TypeError` instead of a value. `Retry` takes the client as a function
  parameter. It returns the completion: either the thrown error or the client's
  result. It also returns the list of configurations the client was called with.

Three behaviours of the code differ from what an HTTP retry helper is commonly
expected to do: case-insensitive header names, a classifier that never throws,
a waiter that never fails. The model follows the code:

- The header name is looked up literally as the lower-case `retry-after`. No
  case-insensitive matching is done, so a `Retry-After` property is not found
  (`RetryAfterReadIsLiteral`).
- A 429 response without a header object makes `isRetryable` raise a TypeError.
  The code does not return `false` there, because `headers` is read without a guard.
- When the response or its header object is missing, `wait` does not succeed.
  Reading the delay raises a TypeError inside the Promise executor, so the
  promise is rejected.
- The delay is the header value itself, passed to the timer as milliseconds.
  Section 10.2.3 of RFC 9110 defines Retry-After in seconds, but no conversion
  from seconds is made (`DelayIsVerbatim`).

## Model

| member | source | states |
|---|---|---|
| Headers.Get | src/utils.js:8 | the read `headers[name]` returns a value only if a property with exactly that name and value exists, and returns undefined exactly when no property has that name |
| Headers.GetAgreesWithHeaderMap | src/utils.js:8 | on a header object (distinct names) the property read equals the lookup in the object's name-to-value dictionary, undefined when the name is absent |
| Utils.IsRetryable | src/utils.js:1-10 | false without a response; false for any status other than exactly 429, whatever the headers; a TypeError exactly when a 429 response has no header object; false when `retry-after` is absent or falsy |
| Utils.IsRetryableCharacterised | src/utils.js:2-9 | the classifier answers true if and only if response present, status 429 and a truthy `retry-after` property; it answers false exactly when that conjunction fails and it does not raise |
| Utils.EmptyHeadersNotRetryable | src/utils.test.js:33-35 | a 429 response with an empty header object is not retryable |
| Utils.NumericRetryAfterRetryable | src/utils.test.js:37-45 | a 429 response with `retry-after: 25` is retryable |
| Utils.RetryAfterReadIsLiteral | src/utils.js:8 | a `Retry-After` property is not read; values 0 and "" are falsy, so not retryable; the string "0" is truthy, so retryable |
| Utils.Delay | src/utils.js:12-16 | the delay is the `retry-after` property verbatim when it exists, undefined when no property has that name, and a TypeError (a rejected promise) exactly when the response or its header object is missing |
| Utils.RetryableErrorHasDelay | src/utils.js:2-14 | on an error the classifier accepts, the delay read by `wait` succeeds and is the truthy `retry-after` value stored in the header object |
| Utils.DelayIsVerbatim | src/utils.js:14 | a numeric `retry-after: n` gives a delay of exactly n |
| Utils.Retry | src/utils.js:18-24 | without a configuration it throws the identical error and calls the client zero times; with one, it calls the client exactly once with that configuration and returns the client's result |

## Left out

- The Promise and the timer in `wait` (src/utils.js:13-15) are asynchronous scheduling, so only the delay value is modelled. The timer's coercion of the delay to a number is also left out: an undefined delay counts as 0, and a numeric string is parsed.
- The HTTP request the client makes in `retry` is a foreign call. The client is a function parameter, and its failures are part of its result type.
- Header values are restricted to integers and strings. JavaScript truthiness of other values (objects, NaN, fractional numbers, booleans) is not modelled.
- A missing or non-numeric `status` behaves like any status other than 429, so status is modelled as an integer.
- Error identity is value equality: "the same error object" is modelled as an equal `Error` value.
- Calling `isRetryable` twice on the same error gives the same answer. This holds for every Dafny function by construction, so no separate lemma states it.
- The test file's Jest scaffolding and its wall-clock race (src/utils.test.js:68-77) are test scaffolding and wall-clock timing.

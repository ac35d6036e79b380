/**
 * The retry helper for rate-limited HTTP requests: the classifier
 * `isRetryable`, the delay that `wait` hands to the timer, and the
 * resubmission decision `retry`.
 *
 * An error is the object the HTTP client rejects with. It may carry the
 * response that was received and the request configuration that produced
 * it; the configuration is opaque here (type parameter C).
 */
module Utils {
  import opened Wrappers
  import opened Headers

  /** The status code of a rate-limited response (Too Many Requests, RFC 6585 section 4). */
  const TooManyRequests: int := 429

  /** The property name the helper reads; the lookup is literal and lower-case. */
  const RetryAfter: string := "retry-after"

  /** A received response; `headers` may be undefined on a hand-built response. */
  datatype Response = Response(status: int, headers: Option<HeaderObject>)

  /** The rejected error: optional response, optional request configuration. */
  datatype Error<C> = Error(message: string, response: Option<Response>, config: Option<C>)

  /**
   * Evaluating a property chain either yields a value or raises a TypeError
   * because a property of `undefined` was read.
   */
  datatype Eval<T> = Value(v: T) | TypeError

  /**
   * The closed form of a retryable error: a response whose status is exactly
   * 429 and whose header object has a `retry-after` property with a truthy value.
   */
  predicate RateLimitedWithRetryAfter<C>(e: Error<C>)
  {
    && e.response.Some?
    && e.response.value.status == TooManyRequests
    && e.response.value.headers.Some?
    && var hs := e.response.value.headers.value;
       exists i :: 0 <= i < |hs| && hs[i].name == RetryAfter && Truthy(hs[i].value)
  }

  /**
   * `isRetryable(error)`: the short-circuit chain `response && status === 429
   * && headers['retry-after']`, coerced to a boolean. Reading `headers` is not
   * guarded, so a 429 response without a header object raises a TypeError.
   */
  function IsRetryable<C>(e: Error<C>): (r: Eval<bool>)
    ensures e.response.None? ==> r == Value(false)
    ensures e.response.Some? && e.response.value.status != TooManyRequests ==> r == Value(false)
    ensures r == TypeError <==>
      e.response.Some? && e.response.value.status == TooManyRequests && e.response.value.headers.None?
    ensures (e.response.Some? && e.response.value.headers.Some? &&
             !TruthyRead(Get(e.response.value.headers.value, RetryAfter))) ==> r == Value(false)
  {
    match e.response
    case None => Value(false)
    case Some(resp) =>
      if resp.status != TooManyRequests then Value(false)
      else match resp.headers
        case None => TypeError
        case Some(hs) => Value(TruthyRead(Get(hs, RetryAfter)))
  }

  /** The classifier answers true exactly for the closed form, and false otherwise unless it raises. */
  lemma IsRetryableCharacterised<C>(e: Error<C>)
    ensures IsRetryable(e) == Value(true) <==> RateLimitedWithRetryAfter(e)
    ensures IsRetryable(e) == Value(false) <==>
      !RateLimitedWithRetryAfter(e) && IsRetryable(e) != TypeError
  {
  }

  /** A 429 rate-limit error with the given header object and no request configuration. */
  function RateLimitError<C>(headers: HeaderObject): Error<C>
  {
    Error("HTTP 429 Rate Limit Exceeded", Some(Response(TooManyRequests, Some(headers))), None)
  }

  /** A 429 response with an empty header object is not retryable. */
  lemma EmptyHeadersNotRetryable<C>()
    ensures IsRetryable(RateLimitError<C>([])) == Value(false)
  {
  }

  /** A 429 response with `retry-after: 25` is retryable. */
  lemma NumericRetryAfterRetryable<C>()
    ensures IsRetryable(RateLimitError<C>([Header(RetryAfter, Num(25))])) == Value(true)
  {
  }

  /**
   * The header name is matched literally: a `Retry-After` property is not the
   * `retry-after` property, and a 0 value is falsy, while the string "0" is truthy.
   */
  lemma RetryAfterReadIsLiteral<C>()
    ensures IsRetryable(RateLimitError<C>([Header("Retry-After", Num(25))])) == Value(false)
    ensures IsRetryable(RateLimitError<C>([Header(RetryAfter, Num(0))])) == Value(false)
    ensures IsRetryable(RateLimitError<C>([Header(RetryAfter, Str(""))])) == Value(false)
    ensures IsRetryable(RateLimitError<C>([Header(RetryAfter, Str("0"))])) == Value(true)
  {
  }

  /**
   * The delay `wait` passes to the timer: the `retry-after` property read
   * verbatim (None when it is undefined), with no conversion from seconds.
   * Reading it dereferences `response` and `headers` without a guard; the
   * resulting TypeError is raised inside the Promise executor, so `wait`
   * returns a rejected promise in that case.
   */
  function Delay<C>(e: Error<C>): (r: Eval<Option<HeaderValue>>)
    ensures r == TypeError <==> e.response.None? || e.response.value.headers.None?
    ensures r.Value? && r.v.Some? ==> Header(RetryAfter, r.v.value) in e.response.value.headers.value
    ensures r.Value? ==> (r.v.None? <==>
      forall i :: 0 <= i < |e.response.value.headers.value| ==> e.response.value.headers.value[i].name != RetryAfter)
  {
    match e.response
    case None => TypeError
    case Some(resp) =>
      match resp.headers
      case None => TypeError
      case Some(hs) => Value(Get(hs, RetryAfter))
  }

  /**
   * On an error the classifier accepts, `wait` does not reject, and its delay
   * is exactly the truthy `retry-after` value the classifier saw.
   */
  lemma RetryableErrorHasDelay<C>(e: Error<C>)
    requires IsRetryable(e) == Value(true)
    ensures Delay(e).Value? && Delay(e).v.Some? && Truthy(Delay(e).v.value)
    ensures exists i ::
      0 <= i < |e.response.value.headers.value| &&
      e.response.value.headers.value[i] == Header(RetryAfter, Delay(e).v.value)
  {
  }

  /** A numeric `retry-after: n` header yields a delay of exactly n, used as milliseconds. */
  lemma DelayIsVerbatim<C>(n: int)
    ensures Delay(RateLimitError<C>([Header(RetryAfter, Num(n))])) == Value(Some(Num(n)))
  {
  }

  /** What `retry(client, error)` does: throw the error, or hand back the client's result. */
  datatype Completion<C, R> = Threw(error: Error<C>) | Returned(result: R)

  /** The completion of `retry` and the configurations the client was called with, in order. */
  datatype Resubmission<C, R> = Resubmission(completion: Completion<C, R>, clientCalls: seq<C>)

  /**
   * `retry(client, error)`: without a request configuration it throws the very
   * error it was given and never calls the client; otherwise it calls the
   * client once with the stored configuration and returns whatever the client
   * returns (a failure of the client is part of R and passes through).
   */
  function Retry<C, R>(client: C -> R, e: Error<C>): (r: Resubmission<C, R>)
    ensures |r.clientCalls| <= 1
    ensures r.clientCalls == [] <==> e.config.None?
    ensures r.completion.Threw? <==> e.config.None?
    ensures r.completion.Threw? ==> r.completion.error == e
    ensures forall c :: c in r.clientCalls ==> Some(c) == e.config
    ensures r.completion.Returned? ==> r.completion.result == client(r.clientCalls[0])
  {
    match e.config
    case None => Resubmission(Threw(e), [])
    case Some(c) => Resubmission(Returned(client(c)), [c])
  }
}

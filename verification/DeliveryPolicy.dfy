/**
 Delivery statuses, failure classes, and the pure policies both backends share:
 classification of downstream answers, retryability and the dead-letter rule.
 */
module DeliveryPolicy {
  import opened Options

  datatype EventStatus = Queued | Delivering | RetryScheduled | Delivered | DeadLetter

  predicate Terminal(s: EventStatus) { s == Delivered || s == DeadLetter }

  datatype ErrorClass = Timeout | Connection | Http1xx | Http3xx | Http429 | Http5xx | Http4xx

  /** What the downstream did with one request. */
  datatype Response = TimedOut | ConnectionFailed | Status(code: int)

  /** The Redis worker's sink client: None means that the delivery counts as accepted. */
  function RedisClassify(r: Response): Option<ErrorClass> {
    match r
    case TimedOut => Some(Timeout)
    case ConnectionFailed => Some(Connection)
    case Status(code) =>
      if 200 <= code < 300 then None
      else if 100 <= code < 200 then Some(Http1xx)
      else if 300 <= code < 400 then Some(Http3xx)
      else if code == 429 then Some(Http429)
      else if code >= 500 then Some(Http5xx)
      else if code >= 400 then Some(Http4xx)
      else None
  }

  /** The Cloudflare consumer's sink and `classify_http_status`. */
  function CloudflareClassify(r: Response): Option<ErrorClass> {
    match r
    case TimedOut => Some(Timeout)
    case ConnectionFailed => Some(Connection)
    case Status(code) =>
      if 200 <= code < 300 then None
      else if 100 <= code < 200 then Some(Http1xx)
      else if 300 <= code < 400 then Some(Http3xx)
      else if code == 429 then Some(Http429)
      else if code >= 500 then Some(Http5xx)
      else Some(Http4xx)
  }

  /** A status code that RFC 9110, section 15, allows: at least three digits, the first not zero. */
  predicate Conforming(r: Response) { r.Status? ==> r.code >= 100 }

  /**
   The two classifiers agree exactly on the answers that section 15 of RFC 9110 allows: below 100 the
   Redis client falls off its chain of tests and reports success where the other reports a client error.
   */
  lemma ClassifiersAgree(r: Response)
    ensures RedisClassify(r) == CloudflareClassify(r) <==> Conforming(r)
    ensures !Conforming(r) ==> RedisClassify(r) == None && CloudflareClassify(r) == Some(Http4xx)
  {
  }

  predicate Retryable(e: ErrorClass) { e in {Timeout, Connection, Http429, Http5xx} }

  /** `DeadLetterPolicy.should_dead_letter` and the same test inlined in `DeliveryService.process`. */
  predicate ShouldDeadLetter(e: ErrorClass, attempt: int, maximum: int) {
    !Retryable(e) || attempt >= maximum
  }
}

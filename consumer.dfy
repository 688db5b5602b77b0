/**
 * The consumer transport of consumer/consumer.go: a 30 + 5 second timeout guard,
 * the raw secret in an `X-API-Key` header, and status classification per call.
 */
module Consumer {
  import opened Wrappers
  import opened Api
  import opened Http

  /** The longest the server holds a long poll, in seconds. */
  const LongPollingMaxDurationSec: int := 30
  /** The margin the client timeout must leave on top of the long poll, in seconds. */
  const LongPollingBufferSec: int := 5

  datatype ForqConsumer = ForqConsumer(forqServerUrl: string, authSecret: string)

  /**
   * The guard `Timeout != 0 && Timeout.Seconds() < 30 + 5`. For every int64 count of
   * nanoseconds the float comparison agrees with this integer one.
   */
  predicate TimeoutTooShort(timeout: Duration) {
    timeout != 0 && (timeout as int) < (LongPollingMaxDurationSec + LongPollingBufferSec) * Second
  }

  /** NewForqConsumer: validate the client timeout, then drop one trailing '/' from the server URL. */
  function NewForqConsumer(timeout: Duration, forqServerUrl: string, authSecret: string): (r: Result<ForqConsumer, ClientError>)
    ensures r.Failure? <==> timeout != 0 && timeout < 35_000_000_000
    ensures r.Failure? ==> r.error == HttpClientTimeoutTooShort
    ensures r.Success? ==>
              r.value.authSecret == authSecret &&
              (forqServerUrl == r.value.forqServerUrl + "/" ||
               (forqServerUrl == r.value.forqServerUrl && !EndsWithSlash(forqServerUrl)))
  {
    if TimeoutTooShort(timeout) then Failure(HttpClientTimeoutTooShort)
    else Success(ForqConsumer(TrimTrailingSlash(forqServerUrl), authSecret))
  }

  /** Disabling the timeout is always accepted. */
  lemma NoTimeoutAccepted(url: string, secret: string)
    ensures NewForqConsumer(0, url, secret).Success?
  {
  }

  /** The headers every consumer request carries. */
  function Headers(c: ForqConsumer): (h: seq<Header>)
    ensures HeaderValue(h, "Accept") == Some("application/json")
    ensures HeaderValue(h, "X-API-Key") == Some(c.authSecret)
    ensures HeaderValue(h, "Authorization") == None
  {
    var h := [Header("Accept", "application/json"), Header("X-API-Key", c.authSecret)];
    assert "Accept"[1] != "Authorization"[1] && "X-API-Key"[0] != "Authorization"[0];
    assert HeaderValue(h[2..], "Authorization") == None;
    assert HeaderValue(h[1..], "Authorization") == None;
    h
  }

  function ConsumeRequest(c: ForqConsumer, queueName: string): (r: Request)
    ensures r.httpMethod == "GET" && r.body == None
    ensures r.url == MessagesEndpoint(c.forqServerUrl, queueName)
    ensures HeaderValue(r.headers, "X-API-Key") == Some(c.authSecret)
  {
    Request("GET", MessagesEndpoint(c.forqServerUrl, queueName), Headers(c), None)
  }

  function AckRequest(c: ForqConsumer, queueName: string, messageId: string): (r: Request)
    ensures r.httpMethod == "POST" && r.body == None
    ensures r.url == AckEndpoint(c.forqServerUrl, queueName, messageId)
    ensures HeaderValue(r.headers, "X-API-Key") == Some(c.authSecret)
  {
    Request("POST", AckEndpoint(c.forqServerUrl, queueName, messageId), Headers(c), None)
  }

  function NackRequest(c: ForqConsumer, queueName: string, messageId: string): (r: Request)
    ensures r.httpMethod == "POST" && r.body == None
    ensures r.url == NackEndpoint(c.forqServerUrl, queueName, messageId)
    ensures HeaderValue(r.headers, "X-API-Key") == Some(c.authSecret)
  {
    Request("POST", NackEndpoint(c.forqServerUrl, queueName, messageId), Headers(c), None)
  }

  /** ConsumeOne, given the outcome `rt` of sending ConsumeRequest(c, queueName). */
  function ConsumeOne(c: ForqConsumer, queueName: string, rt: RoundTrip): (r: ConsumeResult)
    ensures r.NoMessage? <==> HasStatus(rt, StatusNoContent)
    ensures r.Delivered? <==> HasStatus(rt, StatusOK) && rt.response.body.asMessage.Some?
    ensures r.Delivered? ==> Some(r.message) == rt.response.body.asMessage
    ensures HasStatus(rt, StatusOK) && rt.response.body.asMessage.None? ==> r == ConsumeFailed(MessageResponseDecodeFailed)
    ensures rt.Received? && rt.response.statusCode != StatusOK && rt.response.statusCode != StatusNoContent ==>
              r == ConsumeFailed(ErrorFrom(rt.response.body))
    ensures rt == RequestNotCreated ==> r == ConsumeFailed(RequestCreateFailed)
    ensures rt == NotSent ==> r == ConsumeFailed(RequestSendFailed)
  {
    match rt
    case RequestNotCreated => ConsumeFailed(RequestCreateFailed)
    case NotSent => ConsumeFailed(RequestSendFailed)
    case Received(resp) =>
      if resp.statusCode == StatusNoContent then NoMessage
      else if resp.statusCode != StatusOK then ConsumeFailed(ErrorFrom(resp.body))
      else match resp.body.asMessage
        case None => ConsumeFailed(MessageResponseDecodeFailed)
        case Some(message) => Delivered(message)
  }

  /** Ack, given the outcome `rt` of sending AckRequest(c, queueName, messageId): only 204 succeeds. */
  function Ack(c: ForqConsumer, queueName: string, messageId: string, rt: RoundTrip): (r: Outcome<ClientError>)
    ensures r.Pass? <==> HasStatus(rt, StatusNoContent)
    ensures rt.Received? && rt.response.statusCode != StatusNoContent ==> r == Fail(ErrorFrom(rt.response.body))
    ensures rt == RequestNotCreated ==> r == Fail(RequestCreateFailed)
    ensures rt == NotSent ==> r == Fail(RequestSendFailed)
  {
    match rt
    case RequestNotCreated => Fail(RequestCreateFailed)
    case NotSent => Fail(RequestSendFailed)
    case Received(resp) =>
      if resp.statusCode == StatusNoContent then Pass else Fail(ErrorFrom(resp.body))
  }

  /** Nack, given the outcome `rt` of sending NackRequest(c, queueName, messageId): only 204 succeeds. */
  function Nack(c: ForqConsumer, queueName: string, messageId: string, rt: RoundTrip): (r: Outcome<ClientError>)
    ensures r.Pass? <==> HasStatus(rt, StatusNoContent)
    ensures rt.Received? && rt.response.statusCode != StatusNoContent ==> r == Fail(ErrorFrom(rt.response.body))
    ensures rt == RequestNotCreated ==> r == Fail(RequestCreateFailed)
    ensures rt == NotSent ==> r == Fail(RequestSendFailed)
  {
    match rt
    case RequestNotCreated => Fail(RequestCreateFailed)
    case NotSent => Fail(RequestSendFailed)
    case Received(resp) =>
      if resp.statusCode == StatusNoContent then Pass else Fail(ErrorFrom(resp.body))
  }

  /** A 200 answer is a message for ConsumeOne (when it decodes) but an error for Ack and Nack. */
  lemma OkIsSuccessOnlyForConsume(c: ForqConsumer, queueName: string, messageId: string, rt: RoundTrip)
    requires HasStatus(rt, StatusOK) && rt.response.body.asMessage.Some?
    ensures ConsumeOne(c, queueName, rt) == Delivered(rt.response.body.asMessage.value)
    ensures Ack(c, queueName, messageId, rt).Fail? && Nack(c, queueName, messageId, rt).Fail?
  {
  }
}

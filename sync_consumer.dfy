/**
 * The consumer transport of consumer/sync.go, the one the asynchronous consumer uses:
 * a 30 second timeout guard with no margin, and `"ApiKey " + secret` in an
 * `Authorization` header.
 */
module SyncConsumer {
  import opened Wrappers
  import opened Api
  import opened Http

  /** The longest the server holds a long poll, in seconds. */
  const LongPollingMaxDurationSec: int := 30

  const ApiKeyScheme: string := "ApiKey "

  datatype SyncForqConsumer = SyncForqConsumer(forqServerUrl: string, apiKeyHeader: string)

  /** The guard `Timeout != 0 && Timeout.Seconds() < 30`, on integer nanoseconds. */
  predicate TimeoutTooShort(timeout: Duration) {
    timeout != 0 && (timeout as int) < LongPollingMaxDurationSec * Second
  }

  /**
   * NewSyncForqConsumer: drop one trailing '/' from the server URL, then validate the
   * client timeout; the header value stored is the scheme followed by the raw secret.
   */
  function NewSyncForqConsumer(timeout: Duration, forqServerUrl: string, authSecret: string): (r: Result<SyncForqConsumer, ClientError>)
    ensures r.Failure? <==> timeout != 0 && timeout < 30_000_000_000
    ensures r.Failure? ==> r.error == HttpClientTimeoutTooShort
    ensures r.Success? ==>
              |r.value.apiKeyHeader| == 7 + |authSecret| &&
              r.value.apiKeyHeader[..7] == "ApiKey " && r.value.apiKeyHeader[7..] == authSecret &&
              (forqServerUrl == r.value.forqServerUrl + "/" ||
               (forqServerUrl == r.value.forqServerUrl && !EndsWithSlash(forqServerUrl)))
  {
    var url := TrimTrailingSlash(forqServerUrl);
    if TimeoutTooShort(timeout) then Failure(HttpClientTimeoutTooShort)
    else Success(SyncForqConsumer(url, ApiKeyScheme + authSecret))
  }

  /** Disabling the timeout is always accepted. */
  lemma NoTimeoutAccepted(url: string, secret: string)
    ensures NewSyncForqConsumer(0, url, secret).Success?
  {
  }

  /** The headers every request of this variant carries. */
  function Headers(c: SyncForqConsumer): (h: seq<Header>)
    ensures HeaderValue(h, "Accept") == Some("application/json")
    ensures HeaderValue(h, "Authorization") == Some(c.apiKeyHeader)
    ensures HeaderValue(h, "X-API-Key") == None
  {
    var h := [Header("Accept", "application/json"), Header("Authorization", c.apiKeyHeader)];
    assert "Accept"[0] != "X-API-Key"[0] && "Authorization"[0] != "X-API-Key"[0];
    assert "Accept"[1] != "Authorization"[1];
    assert HeaderValue(h[2..], "X-API-Key") == None;
    assert HeaderValue(h[1..], "X-API-Key") == None;
    h
  }

  function ConsumeRequest(c: SyncForqConsumer, queueName: string): (r: Request)
    ensures r.httpMethod == "GET" && r.body == None
    ensures r.url == MessagesEndpoint(c.forqServerUrl, queueName)
    ensures HeaderValue(r.headers, "Authorization") == Some(c.apiKeyHeader)
  {
    Request("GET", MessagesEndpoint(c.forqServerUrl, queueName), Headers(c), None)
  }

  function AckRequest(c: SyncForqConsumer, queueName: string, messageId: string): (r: Request)
    ensures r.httpMethod == "POST" && r.body == None
    ensures r.url == AckEndpoint(c.forqServerUrl, queueName, messageId)
    ensures HeaderValue(r.headers, "Authorization") == Some(c.apiKeyHeader)
  {
    Request("POST", AckEndpoint(c.forqServerUrl, queueName, messageId), Headers(c), None)
  }

  function NackRequest(c: SyncForqConsumer, queueName: string, messageId: string): (r: Request)
    ensures r.httpMethod == "POST" && r.body == None
    ensures r.url == NackEndpoint(c.forqServerUrl, queueName, messageId)
    ensures HeaderValue(r.headers, "Authorization") == Some(c.apiKeyHeader)
  {
    Request("POST", NackEndpoint(c.forqServerUrl, queueName, messageId), Headers(c), None)
  }

  /** ConsumeOne, given the outcome `rt` of sending ConsumeRequest(c, queueName). */
  function ConsumeOne(c: SyncForqConsumer, queueName: string, rt: RoundTrip): (r: ConsumeResult)
    ensures r.NoMessage? <==> HasStatus(rt, StatusNoContent)
    ensures r.Delivered? <==> HasStatus(rt, StatusOK) && rt.response.body.asMessage.Some?
    ensures r.Delivered? ==> Some(r.message) == rt.response.body.asMessage
    ensures HasStatus(rt, StatusOK) && rt.response.body.asMessage.None? ==> r == ConsumeFailed(MessageResponseDecodeFailed)
    ensures rt.Received? && rt.response.statusCode != StatusOK && rt.response.statusCode != StatusNoContent ==>
              r == ConsumeFailed(ErrorFrom(rt.response.body))
    ensures rt == RequestNotCreated ==> r == ConsumeFailed(RequestCreateFailed)
    ensures rt == NotSent ==> r == ConsumeFailed(RequestSendFailed)
  {
    match rt
    case RequestNotCreated => ConsumeFailed(RequestCreateFailed)
    case NotSent => ConsumeFailed(RequestSendFailed)
    case Received(resp) =>
      if resp.statusCode == StatusNoContent then NoMessage
      else if resp.statusCode != StatusOK then ConsumeFailed(ErrorFrom(resp.body))
      else match resp.body.asMessage
        case None => ConsumeFailed(MessageResponseDecodeFailed)
        case Some(message) => Delivered(message)
  }

  /** Ack, given the outcome `rt` of sending AckRequest(c, queueName, messageId): only 204 succeeds. */
  function Ack(c: SyncForqConsumer, queueName: string, messageId: string, rt: RoundTrip): (r: Outcome<ClientError>)
    ensures r.Pass? <==> HasStatus(rt, StatusNoContent)
    ensures rt.Received? && rt.response.statusCode != StatusNoContent ==> r == Fail(ErrorFrom(rt.response.body))
    ensures rt == RequestNotCreated ==> r == Fail(RequestCreateFailed)
    ensures rt == NotSent ==> r == Fail(RequestSendFailed)
  {
    match rt
    case RequestNotCreated => Fail(RequestCreateFailed)
    case NotSent => Fail(RequestSendFailed)
    case Received(resp) =>
      if resp.statusCode == StatusNoContent then Pass else Fail(ErrorFrom(resp.body))
  }

  /** Nack, given the outcome `rt` of sending NackRequest(c, queueName, messageId): only 204 succeeds. */
  function Nack(c: SyncForqConsumer, queueName: string, messageId: string, rt: RoundTrip): (r: Outcome<ClientError>)
    ensures r.Pass? <==> HasStatus(rt, StatusNoContent)
    ensures rt.Received? && rt.response.statusCode != StatusNoContent ==> r == Fail(ErrorFrom(rt.response.body))
    ensures rt == RequestNotCreated ==> r == Fail(RequestCreateFailed)
    ensures rt == NotSent ==> r == Fail(RequestSendFailed)
  {
    match rt
    case RequestNotCreated => Fail(RequestCreateFailed)
    case NotSent => Fail(RequestSendFailed)
    case Received(resp) =>
      if resp.statusCode == StatusNoContent then Pass else Fail(ErrorFrom(resp.body))
  }
}

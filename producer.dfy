/** The producer transport of producer/producer.go: a URL trim, no validation, and one call. */
module Producer {
  import opened Wrappers
  import opened Api
  import opened Http

  datatype ForqProducer = ForqProducer(forqServerUrl: string, authSecret: string)

  /** NewForqProducer never fails: there is no timeout check, only the trim of one trailing '/'. */
  function NewForqProducer(forqServerUrl: string, authSecret: string): (p: ForqProducer)
    ensures p.authSecret == authSecret
    ensures forqServerUrl == p.forqServerUrl + "/" ||
            (forqServerUrl == p.forqServerUrl && !EndsWithSlash(forqServerUrl))
  {
    ForqProducer(TrimTrailingSlash(forqServerUrl), authSecret)
  }

  /**
   * The request Produce builds from the marshalled body `marshalled` (None: json.Marshal
   * failed, and then no request is built at all).
   */
  function ProduceRequest(p: ForqProducer, queueName: string, marshalled: Option<string>): (r: Option<Request>)
    ensures r.Some? <==> marshalled.Some?
    ensures r.Some? ==>
              r.value.httpMethod == "POST" &&
              r.value.url == MessagesEndpoint(p.forqServerUrl, queueName) &&
              r.value.body == marshalled &&
              HeaderValue(r.value.headers, "Content-Type") == Some("application/json") &&
              HeaderValue(r.value.headers, "X-API-Key") == Some(p.authSecret)
  {
    match marshalled
    case None => None
    case Some(text) =>
      var h := [Header("Accept", "application/json"), Header("Content-Type", "application/json"), Header("X-API-Key", p.authSecret)];
      assert "Accept"[0] != "Content-Type"[0] && "Accept"[0] != "X-API-Key"[0] && "Content-Type"[0] != "X-API-Key"[0];
      assert HeaderValue(h[3..], "X-API-Key") == None;
      assert HeaderValue(h[2..], "X-API-Key") == Some(p.authSecret);
      assert HeaderValue(h[1..], "X-API-Key") == Some(p.authSecret);
      Some(Request("POST", MessagesEndpoint(p.forqServerUrl, queueName), h, Some(text)))
  }

  /**
   * Produce, given the marshalled body and the outcome `rt` of sending the request
   * (ignored when marshalling failed, since nothing is sent then).
   */
  function Produce(p: ForqProducer, newMessage: NewMessageRequest, queueName: string,
                   marshalled: Option<string>, rt: RoundTrip): (r: Outcome<ClientError>)
    ensures marshalled.None? ==> r == Fail(MarshalFailed)
    ensures marshalled.Some? ==>
              (r.Pass? <==> HasStatus(rt, StatusNoContent)) &&
              (rt.Received? && rt.response.statusCode != StatusNoContent ==> r == Fail(ErrorFrom(rt.response.body))) &&
              (rt == RequestNotCreated ==> r == Fail(RequestCreateFailed)) &&
              (rt == NotSent ==> r == Fail(RequestSendFailed))
  {
    if marshalled.None? then Fail(MarshalFailed)
    else match rt
      case RequestNotCreated => Fail(RequestCreateFailed)
      case NotSent => Fail(RequestSendFailed)
      case Received(resp) =>
        if resp.statusCode == StatusNoContent then Pass else Fail(ErrorFrom(resp.body))
  }

  /** A marshalling failure is reported whatever the network would have answered. */
  lemma MarshalFailureIgnoresNetwork(p: ForqProducer, m: NewMessageRequest, q: string, rt1: RoundTrip, rt2: RoundTrip)
    ensures Produce(p, m, q, None, rt1) == Produce(p, m, q, None, rt2) == Fail(MarshalFailed)
  {
  }
}

/**
 * What the transport methods see of one HTTP exchange, the errors they return,
 * and the URL handling the three transports share.
 *
 * Building the request (http.NewRequest), sending it (httpClient.Do) and decoding
 * the JSON body (encoding/json) are foreign calls: their outcome is an input.
 */
module Http {
  import opened Wrappers
  import opened Api

  /** Go's time.Duration: a signed 64-bit count of nanoseconds. */
  newtype Duration = x: int | -0x8000_0000_0000_0000 <= x < 0x8000_0000_0000_0000

  const Second: int := 1_000_000_000

  const StatusOK: int := 200
  const StatusNoContent: int := 204

  /** A response body, given by what decoding it as each response shape yields (None: the decode fails). */
  datatype Body = Body(asError: Option<ErrorResponse>, asMessage: Option<MessageResponse>)

  datatype Response = Response(statusCode: int, body: Body)

  /** The outcome of building a request and sending it. */
  datatype RoundTrip =
    | RequestNotCreated         // http.NewRequest failed
    | NotSent                   // httpClient.Do failed
    | Received(response: Response)

  predicate HasStatus(rt: RoundTrip, status: int) {
    rt.Received? && rt.response.statusCode == status
  }

  datatype Header = Header(name: string, value: string)

  datatype Request = Request(httpMethod: string, url: string, headers: seq<Header>, body: Option<string>)

  /** The value of the first header called `name`, if any. */
  function HeaderValue(headers: seq<Header>, name: string): Option<string> {
    if headers == [] then None
    else if headers[0].name == name then Some(headers[0].value)
    else HeaderValue(headers[1..], name)
  }

  /** The error values the transports return. */
  datatype ClientError =
    | HttpClientTimeoutTooShort      // the HTTP client would cut a long poll short
    | MarshalFailed                  // "failed to marshal new message request"
    | RequestCreateFailed            // "failed to create new HTTP request"
    | RequestSendFailed              // "failed to send HTTP request"
    | ErrorResponseDecodeFailed      // "failed to decode error response"
    | MessageResponseDecodeFailed    // "failed to decode message response"
    | Server(response: ErrorResponse)  // the decoded error body; its text is the code

  /** What ConsumeOne returns: a message, nothing (nil, nil), or an error. */
  datatype ConsumeResult =
    | Delivered(message: MessageResponse)
    | NoMessage
    | ConsumeFailed(error: ClientError)

  /** The error a non-success response turns into: the decoded `*api.ErrorResponse`, or a decode failure. */
  function ErrorFrom(body: Body): (e: ClientError)
    ensures e.Server? || e == ErrorResponseDecodeFailed
    ensures e.Server? <==> body.asError.Some?
    ensures e.Server? ==> e.response == body.asError.value
  {
    match body.asError
    case Some(errResp) => Server(errResp)
    case None => ErrorResponseDecodeFailed
  }

  predicate EndsWithSlash(s: string) {
    |s| > 0 && s[|s| - 1] == '/'
  }

  /** strings.HasSuffix(url, "/") followed by strings.TrimSuffix(url, "/"): drops one trailing slash. */
  function TrimTrailingSlash(url: string): (r: string)
    ensures url == r + "/" || (url == r && !EndsWithSlash(url))
  {
    if EndsWithSlash(url) then url[..|url| - 1] else url
  }

  /** Only one slash goes: "x//" becomes "x/". */
  lemma TrimKeepsSecondSlash(u: string)
    ensures TrimTrailingSlash(u + "//") == u + "/"
  {
    assert (u + "//")[..|u| + 1] == u + "/";
  }

  const QueuesPath: string := "/api/v1/queues/"

  /** The consume and produce endpoint, `{url}/api/v1/queues/{queue}/messages`, without any escaping. */
  function MessagesEndpoint(url: string, queue: string): (r: string)
    ensures |r| == |url| + |QueuesPath| + |queue| + |"/messages"|
    ensures r[..|url| + |QueuesPath|] == url + QueuesPath
    ensures r[|url| + |QueuesPath|..|url| + |QueuesPath| + |queue|] == queue
    ensures r[|url| + |QueuesPath| + |queue|..] == "/messages"
  {
    url + "/api/v1/queues/" + queue + "/messages"
  }

  /** `{url}/api/v1/queues/{queue}/messages/{id}/ack`. */
  function AckEndpoint(url: string, queue: string, id: string): (r: string)
    ensures |r| == |url| + |QueuesPath| + |queue| + |"/messages/"| + |id| + |"/ack"|
    ensures r[..|url| + |QueuesPath|] == url + QueuesPath
    ensures r[|url| + |QueuesPath|..|url| + |QueuesPath| + |queue|] == queue
    ensures r[|url| + |QueuesPath| + |queue|..|url| + |QueuesPath| + |queue| + 10] == "/messages/"
    ensures r[|url| + |QueuesPath| + |queue| + 10..|r| - 4] == id
    ensures r[|r| - 4..] == "/ack"
  {
    url + "/api/v1/queues/" + queue + "/messages/" + id + "/ack"
  }

  /** `{url}/api/v1/queues/{queue}/messages/{id}/nack`. */
  function NackEndpoint(url: string, queue: string, id: string): (r: string)
    ensures |r| == |url| + |QueuesPath| + |queue| + |"/messages/"| + |id| + |"/nack"|
    ensures r[..|url| + |QueuesPath|] == url + QueuesPath
    ensures r[|url| + |QueuesPath|..|url| + |QueuesPath| + |queue|] == queue
    ensures r[|url| + |QueuesPath| + |queue|..|url| + |QueuesPath| + |queue| + 10] == "/messages/"
    ensures r[|url| + |QueuesPath| + |queue| + 10..|r| - 5] == id
    ensures r[|r| - 5..] == "/nack"
  {
    url + "/api/v1/queues/" + queue + "/messages/" + id + "/nack"
  }

  /** For a fixed server URL, the messages endpoint names exactly one queue. */
  lemma MessagesEndpointInjective(url: string, q1: string, q2: string)
    requires MessagesEndpoint(url, q1) == MessagesEndpoint(url, q2)
    ensures q1 == q2
  {
    var e1, e2 := MessagesEndpoint(url, q1), MessagesEndpoint(url, q2);
    var k := |url| + |QueuesPath|;
    assert |q1| == |q2|;
    calc {
      q1;
      e1[k..k + |q1|];
      e2[k..k + |q2|];
      q2;
    }
  }

  /**
   * Nothing is escaped: a queue name holding "/messages/" and a message id holding it
   * can be traded for one another and still address the same ack URL.
   */
  lemma AckEndpointUnescaped(url: string, queue: string, x: string, id: string)
    ensures AckEndpoint(url, queue + "/messages/" + x, id) == AckEndpoint(url, queue, x + "/messages/" + id)
  {
    var p := url + "/api/v1/queues/";
    calc {
      AckEndpoint(url, queue + "/messages/" + x, id);
      p + (queue + "/messages/" + x) + "/messages/" + id + "/ack";
      p + queue + "/messages/" + (x + "/messages/" + id) + "/ack";
      AckEndpoint(url, queue, x + "/messages/" + id);
    }
  }

  /** An ack URL is never a nack URL, whatever the queue names and ids. */
  lemma AckNackEndpointsDiffer(url: string, q1: string, id1: string, q2: string, id2: string)
    ensures AckEndpoint(url, q1, id1) != NackEndpoint(url, q2, id2)
  {
    var a, n := AckEndpoint(url, q1, id1), NackEndpoint(url, q2, id2);
    assert a[|a| - 4] == '/';
    assert n[|n| - 4] == 'n';
  }
}

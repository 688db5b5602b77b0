# forq-sdk-go, modelled in Dafny

This project models the client SDK of the Forq message queue: the three HTTP
transports (`ForqConsumer`, `SyncForqConsumer`, `ForqProducer`) and the two
channel-driven workers built on them (`AsyncForqConsumer`, `AsyncForqProducer`).

- The transports are pure functions. Each takes the outcome of the HTTP exchange
  as an input: the request could not be built, it could not be sent, or it got a
  response with a status code and decode results. From that outcome each returns
  the message, nothing, or the error the Go code returns.
- Construction checks the HTTP client timeout and drops one trailing `/` from the
  server URL.
- Endpoints are built by plain concatenation.
- A Go channel is the value `Channels.Chan<T>`, which holds a FIFO buffer, a
  capacity and a closed flag.
- The two workers are classes. Their fields are the channels, the stop and done
  flags, and a log of the transport calls made.
- Every `select` case is one step method. A step method requires that its case
  is ready, because `select` only takes ready cases.
- The drain loops are `while` loops over the buffers. They are proved against a
  pure function of the state they start from.
- During a drain the transport answers the k-th call overall with `net(k)`.
  `preferAck(k)` decides which case the consumer drain takes when both ackChan
  and nackChan are ready. So every sequence of replies and every scheduling
  choice is covered.

Modules:

- `Wrappers`: Option/Outcome/Result.
- `Api`: the wire shapes and error codes.
- `Http`: the exchange outcome and error values, plus the URL trim and endpoints.
- `Channels`.
- `Consumer`: consumer/consumer.go.
- `SyncConsumer`: consumer/sync.go.
- `ConsumerVariants`: how the two consumer transports compare.
- `Producer`: producer/producer.go.
- `AsyncConsumer`: consumer/async.go.
- `AsyncProducer`: producer/async.go.

The repository holds two consumer transports that differ in two ways:

- consumer/consumer.go sends the raw secret in an `X-API-Key` header, and guards
  the client timeout at 30 + 5 seconds.
- consumer/sync.go sends `Authorization: ApiKey <secret>`, and guards at 30 seconds.
  This is the transport the asynchronous consumer uses.

Both transports are modelled. `ConsumerVariants.TimeoutGuardsNest` relates their
two guards.

## Model

| member | source | states |
|---|---|---|
| Http.ErrorFrom | consumer/consumer.go:79-86 | a non-success body becomes the decoded `*ErrorResponse` carrying its code exactly when it decodes, and a decode-failure error otherwise |
| Http.TrimTrailingSlash | producer/producer.go:29-31 | the URL is the result plus one `/`, or it is the result unchanged and does not end in `/` |
| Http.TrimKeepsSecondSlash | consumer/consumer.go:44-46 | only one slash is removed: `x//` becomes `x/` |
| Http.MessagesEndpoint | consumer/consumer.go:14 | the endpoint is, segment by segment, the server URL then `/api/v1/queues/`, then the queue name verbatim, then `/messages` and nothing after it |
| Http.AckEndpoint | consumer/consumer.go:15 | the ack endpoint is, segment by segment, the server URL, `/api/v1/queues/`, the queue name verbatim, `/messages/`, the message id verbatim, then `/ack` |
| Http.NackEndpoint | consumer/sync.go:14 | the nack endpoint is, segment by segment, the server URL, `/api/v1/queues/`, the queue name verbatim, `/messages/`, the message id verbatim, then `/nack` |
| Http.MessagesEndpointInjective | producer/producer.go:49 | for one server URL, equal messages endpoints mean equal queue names |
| Http.AckEndpointUnescaped | consumer/consumer.go:100 | without escaping, a queue name and a message id that carry `/messages/` can trade it and give the same ack URL |
| Http.AckNackEndpointsDiffer | consumer/consumer.go:15-16 | an ack URL never equals a nack URL |
| Consumer.NewForqConsumer | consumer/consumer.go:36-53 | fails, with the timeout error, exactly when the timeout is nonzero and below 35 s; on success it keeps the raw secret and the URL without one trailing `/` |
| Consumer.NoTimeoutAccepted | consumer/consumer.go:41 | a zero timeout is always accepted |
| Consumer.Headers | consumer/consumer.go:66-67 | `Accept: application/json` and `X-API-Key` set to the raw secret, with no `Authorization` header |
| Consumer.ConsumeRequest | consumer/consumer.go:59-67 | a GET to the messages endpoint with no body, carrying the secret in `X-API-Key` |
| Consumer.AckRequest | consumer/consumer.go:100-108 | a POST to `.../messages/{id}/ack` with no body, carrying the secret in `X-API-Key` |
| Consumer.NackRequest | consumer/consumer.go:132-140 | a POST to `.../messages/{id}/nack` with no body, carrying the secret in `X-API-Key` |
| Consumer.ConsumeOne | consumer/consumer.go:55-93 | nothing exactly on 204; a message exactly on 200 with a decodable body, and that decoded message; a decode error on 200 with an undecodable body; the error body's error on any other status; the build and send errors otherwise |
| Consumer.Ack | consumer/consumer.go:95-125 | success exactly on 204; any other status, 200 included, gives the error body's error; the build and send errors otherwise |
| Consumer.Nack | consumer/consumer.go:127-157 | success exactly on 204; any other status gives the error body's error; the build and send errors otherwise |
| Consumer.OkIsSuccessOnlyForConsume | consumer/consumer.go:75-92 | a decodable 200 answer is a message for ConsumeOne but an error for both Ack and Nack |
| SyncConsumer.NewSyncForqConsumer | consumer/sync.go:33-50 | fails exactly when the timeout is nonzero and below 30 s; on success the header value is `ApiKey ` followed by the secret, and the URL has lost one trailing `/` |
| SyncConsumer.NoTimeoutAccepted | consumer/sync.go:41 | a zero timeout is always accepted |
| SyncConsumer.Headers | consumer/sync.go:60-61 | `Accept: application/json` and `Authorization` set to the stored `ApiKey` value, with no `X-API-Key` header |
| SyncConsumer.ConsumeRequest | consumer/sync.go:53-61 | a GET to the messages endpoint with no body, carrying the `Authorization` value |
| SyncConsumer.AckRequest | consumer/sync.go:90-98 | a POST to the ack endpoint with no body, carrying the `Authorization` value |
| SyncConsumer.NackRequest | consumer/sync.go:118-126 | a POST to the nack endpoint with no body, carrying the `Authorization` value |
| SyncConsumer.ConsumeOne | consumer/sync.go:52-87 | the same classification as the 30 + 5 second variant: 204 nothing, a decodable 200 the message, an undecodable 200 a decode error, otherwise the error body's error or a decode error |
| SyncConsumer.Ack | consumer/sync.go:89-115 | success exactly on 204, the error body's error otherwise |
| SyncConsumer.Nack | consumer/sync.go:117-143 | success exactly on 204, the error body's error otherwise |
| ConsumerVariants.TimeoutGuardsNest | consumer/sync.go:41-43 | every timeout the 35 s guard accepts, the 30 s guard accepts too, and 32 s is accepted by only one of them |
| ConsumerVariants.SameServerUrl | consumer/sync.go:38-40 | for every timeout the 30 + 5 second variant accepts, the 30 second variant accepts it too, and both store the same trimmed server URL |
| ConsumerVariants.SameClassification | consumer/sync.go:69-86 | both variants classify every exchange outcome the same way in ConsumeOne, Ack and Nack |
| Producer.NewForqProducer | producer/producer.go:24-37 | never fails; keeps the secret and drops one trailing `/` |
| Producer.ProduceRequest | producer/producer.go:44-58 | no request when marshalling fails; otherwise a POST to the messages endpoint whose body is the marshalled message, with `Content-Type: application/json` and the raw secret in `X-API-Key` |
| Producer.Produce | producer/producer.go:39-75 | a marshalling failure is reported first; otherwise success exactly on 204, the error body's error on any other status, and the build and send errors |
| Producer.MarshalFailureIgnoresNetwork | producer/producer.go:44-47 | after a marshalling failure, the result is the same whatever the network would have answered |
| Channels.Chan.Recv | consumer/async.go:89-93 | ok holds exactly when a value was buffered; then the buffer was that value followed by what is left; otherwise the zero value comes back and the channel is unchanged; capacity and closed flag never change |
| Channels.Chan.Send | consumer/async.go:62 | a send that is ready appends the value at the back of the buffer, keeps capacity and closed flag, and keeps the buffer within capacity |
| Channels.Chan.TrySend | consumer/async.go:143-147 | a send with a `default` case appends the value when there is room and otherwise leaves the channel exactly as it was; it keeps the buffer within capacity |
| Channels.OfferAllKeepsWhatFits | consumer/async.go:141-147 | offering values one by one without blocking keeps exactly the earliest values that fit, in order, drops the rest and changes nothing else |
| Channels.OfferAllAppend | producer/async.go:71-77 | offering two sequences one after the other is offering their concatenation |
| AsyncConsumer.DrainSelect | consumer/async.go:138-162 | the default case fires exactly when neither receive is ready; any other case taken is ready |
| AsyncConsumer.DrainStep | consumer/async.go:137-162 | one drain iteration: none exactly when nothing is ready; otherwise exactly one ack or nack call on the queue for the id the receive yields; its failure is offered to errChan without blocking; the other channel is untouched; two open channels lose one buffered id between them |
| AsyncConsumer.Drained | consumer/async.go:136-164 | a drain over open channels ends with both buffers empty and nothing else about them changed |
| AsyncConsumer.OpenDrainStep | consumer/async.go:139-150 | on open channels one iteration takes the oldest id of exactly one channel, makes the matching call on the queue, and leaves the other channel alone |
| AsyncConsumer.DrainedServesEachIdOnce | consumer/async.go:139-150 | the drain acks every id buffered in ackChan exactly once and nacks every id buffered in nackChan exactly once, each in FIFO order; it makes no other call and keeps the earlier calls |
| AsyncConsumer.DrainedReportsWhatFits | consumer/async.go:141-157 | the drain's errChan is the old one with each failure, in call order, offered without blocking |
| AsyncConsumer.DrainedSummary | consumer/async.go:136-164 | all of the above together, with errChan's buffer in closed form: the old buffer plus the failures that fit |
| AsyncConsumer.ClosedChannelDrainNeverEnds | consumer/async.go:139 | with ackChan or nackChan closed, every iteration of the drain makes a call, so the drain never returns |
| AsyncConsumer.ClosedAckChanAcksEmptyIdForever | consumer/async.go:139-140 | a closed, empty ackChan makes the drain ack the empty id over and over |
| AsyncConsumer.AsyncForqConsumer.constructor | consumer/async.go:38-47 | nothing is started or signalled and no call is made; the channels and queue are those given |
| AsyncConsumer.NewAsyncForqConsumer | consumer/async.go:23-48 | the transport's construction error is returned with no consumer; otherwise there is a fresh idle consumer over the given channels |
| AsyncConsumer.AsyncForqConsumer.Start | consumer/async.go:119-127 | both loops are launched together |
| AsyncConsumer.AsyncForqConsumer.PollStep | consumer/async.go:54-68 | with stop already signalled the loop exits without polling; otherwise one poll is made, then an error is forwarded, a message is delivered, or an empty result re-polls |
| AsyncConsumer.AsyncForqConsumer.ForwardStep | consumer/async.go:60-74 | an error goes only to errChan and a message only to consumerChan; when stop wins the loop exits and neither channel changes |
| AsyncConsumer.AsyncForqConsumer.AckStep | consumer/async.go:89-101 | a closed, empty ackChan ends the loop at once with no drain and no call; otherwise the oldest id is acked once and the loop goes on or reports the failure |
| AsyncConsumer.AsyncForqConsumer.NackStep | consumer/async.go:102-114 | a closed, empty nackChan ends the loop at once with no drain and no call; otherwise the oldest id is nacked once |
| AsyncConsumer.AsyncForqConsumer.ReportStep | consumer/async.go:96-100 | the failure is delivered to errChan, or stop wins and the loop exits without draining the ids still buffered |
| AsyncConsumer.AsyncForqConsumer.StopStep | consumer/async.go:85-88 | on stop the loop drains, with both buffers emptied and every id served once, and then exits |
| AsyncConsumer.AsyncForqConsumer.DrainAcksAndNacks | consumer/async.go:136-164 | the loop ends in the state `Drained` gives: both buffers empty, one call per buffered id in FIFO order, each failure kept in errChan only if it fits, and only the drain's fields changed |
| AsyncConsumer.AsyncForqConsumer.DrainOnce | consumer/async.go:138-161 | one iteration of the loop does exactly what `DrainStep` gives, and reports whether the default case fired |
| AsyncConsumer.AsyncForqConsumer.FinishStep | consumer/async.go:130-133 | once both loops have exited, doneChan is closed, and closed once |
| AsyncConsumer.AsyncForqConsumer.Stop | consumer/async.go:166-170 | the stop signal is set, and it fires at most once however often Stop is called |
| AsyncConsumer.AsyncForqConsumer.Wait | consumer/async.go:172-174 | returns exactly when doneChan is closed, and then both loops have exited |
| AsyncConsumer.AsyncForqConsumer.Close | consumer/async.go:176-180 | Stop then Wait, with no error returned |
| AsyncProducer.AsyncForqProducer.constructor | producer/async.go:18-32 | nothing is started or signalled and nothing is produced; the channels are those given |
| AsyncProducer.AsyncForqProducer.Start | producer/async.go:34-35 | the worker is launched |
| AsyncProducer.AsyncForqProducer.ReceiveStep | producer/async.go:36-46 | a closed, empty producerChan ends the worker with no drain and no call, and the deferred close of doneChan runs once; otherwise the oldest message is produced once and doneChan stays open |
| AsyncProducer.AsyncForqProducer.ReportStep | producer/async.go:46-52 | the failure goes to errChan, or stop wins and the worker exits without draining, closing doneChan once |
| AsyncProducer.AsyncForqProducer.StopStep | producer/async.go:54-57 | on stop the worker drains producerChan, every buffered message produced once in order, then exits and closes doneChan once |
| AsyncProducer.AsyncForqProducer.ProduceOnce | producer/async.go:65-82 | one drain iteration: it ends the drain, changing nothing, exactly when producerChan is empty; otherwise the oldest message is produced and a failure is offered to errChan without blocking |
| AsyncProducer.AsyncForqProducer.DrainMessages | producer/async.go:63-84 | every buffered message is produced exactly once in FIFO order; the buffer ends empty; each failure is kept in errChan only if it fits, as the old buffer plus the failures that fit |
| AsyncProducer.AsyncForqProducer.Stop | producer/async.go:86-90 | the stop signal is set, and it fires at most once |
| AsyncProducer.AsyncForqProducer.Wait | producer/async.go:92-94 | returns exactly when doneChan is closed, and then the worker has exited |
| AsyncProducer.AsyncForqProducer.Close | producer/async.go:96-100 | Stop then Wait, with no error returned |

## Left out

- Goroutines, the scheduler, and `select`'s random choice among ready cases are not modelled as such. Each case is a step method that requires its case to be ready. Which one runs, and in what interleaving, is left to the caller. In the drains the choice is the `preferAck` input.
- `sync.Once` and `sync.WaitGroup` are modelled as flags with ghost counters, not as their implementations.
- Blocking is not modelled: `Wait` reports whether doneChan is closed, and does not suspend until it is.
- `http.NewRequest`, `httpClient.Do`, closing the response body, and context cancellation are foreign calls. Their outcome is the `RoundTrip` input.
- `json.Marshal` cannot fail on a `NewMessageRequest`, which holds only a string and an int64. So the `MarshalFailed` path of `Produce` is kept only because the code has it; it is unreachable in Go.
- JSON encoding and decoding are library behaviour. A decode is given as success with a value or as failure, and a marshal as `Option<string>`.
- The wording of the `fmt.Errorf` messages is not modelled. Each error is a distinct `ClientError` value; a decoded error body keeps its code, and that code is its text.
- `fmt.Sprintf` splices the server URL into the format string itself. A `%` in the URL would be read as a verb. The model builds endpoints by concatenation, which is what the code does for every URL without `%`.
- `Duration.Seconds()` compares as a float64. The model compares integer nanoseconds against 35·10⁹ and 30·10⁹, which gives the same verdict for every int64 duration.
- Long-poll timing, latency, and how long a shutdown takes cannot be expressed in the model.
- Closing consumerChan or errChan is not modelled: a send on a closed channel panics in Go. The consumer and producer require those channels open.
- Unbuffered (capacity 0) rendezvous channels are not modelled. A send is ready only when the buffer has room, so a capacity-0 channel never accepts a send.
- Channel aliasing is not modelled, for example the same channel passed as both ackChan and nackChan. Each channel is a separate value held in a field.
- During a drain the application does not send more ids or messages: the drain is one method over the buffered contents.
- DrainAcksAndNacks, DrainMessages: the closed form for errChan (the old buffer plus the failures that fit) assumes the drain runs atomically with respect to errChan. In Go the application may receive from errChan during the drain, which frees room. During the ack/nack drain the consume loop may also still win its `errChan <- err` race against the closed stopChan, which takes room. Neither effect is modelled.
- The application's side of the channels has no operation of its own: receiving messages and errors, sending ids, and closing ackChan, nackChan or producerChan. It appears only as the channel fields holding different values between steps.
- The consumer's drain is proved for open ackChan and nackChan only: `StopStep` and `DrainAcksAndNacks` require both open. With either one closed, the drain never returns; `ClosedChannelDrainNeverEnds` and `ClosedAckChanAcksEmptyIdForever` prove this.
- `Start` called a second time, which launches a second set of goroutines, is excluded by `Start`'s precondition.
- `NewSyncForqProducer` and `SyncForqProducer.Produce`, which the asynchronous producer calls, are not part of this model. Their reply is the `reply` or `net` input.
- consumer/sync.go trims the URL before it checks the timeout. `SyncConsumer.NewSyncForqConsumer` does the same, but on failure the trimmed URL goes nowhere, so the order cannot be observed.
- consumer/consumer.go and consumer/sync.go declare the same names in one Go package, and cannot be built together. They are modelled as two independent modules.

/** How the two consumer transports of the consumer package relate. */
module ConsumerVariants {
  import opened Http
  import Consumer
  import SyncConsumer

  /**
   * Every timeout the 30 + 5 second variant accepts the 30 second variant accepts too,
   * and a timeout of 32 seconds separates them.
   */
  lemma TimeoutGuardsNest(timeout: Duration, url: string, secret: string)
    ensures Consumer.NewForqConsumer(timeout, url, secret).Success? ==> SyncConsumer.NewSyncForqConsumer(timeout, url, secret).Success?
    ensures Consumer.NewForqConsumer(32_000_000_000, url, secret).Failure?
    ensures SyncConsumer.NewSyncForqConsumer(32_000_000_000, url, secret).Success?
  {
  }

  /** Whenever the 30 + 5 second variant accepts a timeout, both variants store the same trimmed server URL. */
  lemma SameServerUrl(timeout: Duration, url: string, secret: string)
    requires Consumer.NewForqConsumer(timeout, url, secret).Success?
    ensures SyncConsumer.NewSyncForqConsumer(timeout, url, secret).Success?
    ensures Consumer.NewForqConsumer(timeout, url, secret).value.forqServerUrl ==
            SyncConsumer.NewSyncForqConsumer(timeout, url, secret).value.forqServerUrl
  {
  }

  /** Both variants classify every round trip alike. */
  lemma SameClassification(c: Consumer.ForqConsumer, s: SyncConsumer.SyncForqConsumer, queue: string, id: string, rt: RoundTrip)
    ensures Consumer.ConsumeOne(c, queue, rt) == SyncConsumer.ConsumeOne(s, queue, rt)
    ensures Consumer.Ack(c, queue, id, rt) == SyncConsumer.Ack(s, queue, id, rt)
    ensures Consumer.Nack(c, queue, id, rt) == SyncConsumer.Nack(s, queue, id, rt)
  {
  }
}

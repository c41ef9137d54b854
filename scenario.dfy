/**
 One client's whole life on the hub: connect, subscribe to "alerts", receive a
 broadcast, unsubscribe, miss the next broadcast, ping, and disconnect.
 */
module Scenario {
  import opened Protocol
  import opened Registry

  const ALERT: Option<Payload> := Some("{\"x\":1}")

  lemma Lifecycle()
    ensures var h0 := Admit(EMPTY, 7);
      var h1 := Subscribe(h0, 7, "alerts");
      && Valid(h1) && Members(h1, "alerts") <= h1.records.Keys
      && var h2 := Fanout(h1, "alerts", ALERT);
      var h3 := Unsubscribe(h2, 7, "alerts");
      && Valid(h3) && Members(h3, "alerts") <= h3.records.Keys
      && var h4 := Fanout(h3, "alerts", ALERT);
      var h5 := Ping(h4, 7);
      var h6 := Unregister(h5, 7);
      && h5.records[7].send.queue
           == [ConnectAck(7), SubscribeAck(7, "alerts"), Delivery("alerts", ALERT), UnsubscribeAck(7, "alerts"), Pong(7)]
      && h6.clients == {} && h6.subscriptions == map[] && h6.records[7].send.closed
  {
  }

  /** A client that disconnects while still subscribed takes the channel entry with it if it was the last member. */
  lemma DisconnectDeletesLastChannel()
    ensures var h1 := Subscribe(Admit(EMPTY, 7), 7, "alerts");
      && Valid(h1) && "alerts" in h1.subscriptions
      && var h2 := Unregister(h1, 7);
      h2.clients == {} && "alerts" !in h2.subscriptions && h2.records[7].send.closed
  {
  }
}

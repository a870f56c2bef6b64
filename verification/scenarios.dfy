/**
 * What a market-data tick does for particular histories of subscriptions and
 * failures: quotes reach exactly the subscribers of their pair, an
 * unsubscribed pair stops arriving, and a client whose send threw is not
 * written to again.
 */
module Scenarios {
  import opened Topics
  import opened Protocol
  import opened Fanout
  import opened WebSocket

  /** Client `x` holds the EUR/USD topic and client `y` the GBP/USD topic. */
  predicate TwoSubscribers(x: ClientId, y: ClientId, clients: map<ClientId, Connection>)
  {
    && x != y && clients.Keys == {x, y}
    && clients[x].subscriptions == {MarketDataTopic("EUR/USD")}
    && clients[y].subscriptions == {MarketDataTopic("GBP/USD")}
  }

  /** The quotes of `pair` in a tick over `x` and `y`, both open, no send failing. */
  lemma PairQuotes(pair: string, x: ClientId, y: ClientId, clients: map<ClientId, Connection>, a: bool, b: bool)
    requires TwoSubscribers(x, y, clients)
    requires a <==> pair == "EUR/USD"
    requires b <==> pair == "GBP/USD"
    ensures Quotes(pair, [x, y], clients, {x, y}, {})
         == (if a then [Delivery(x, MarketData(pair))] else [])
            + (if b then [Delivery(y, MarketData(pair))] else [])
  {
    var topic, open := MarketDataTopic(pair), {x, y};
    TopicInjective(pair, "EUR/USD");
    TopicInjective(pair, "GBP/USD");
    assert Holds(clients, x, topic) <==> a;
    assert Holds(clients, y, topic) <==> b;
    assert [x, y][..1] == [x];
    assert [x][..0] == [];
    var ts := Targets([x, y], clients, topic, open);
    assert Targets([x], clients, topic, open) == (if a then [x] else []) by {
      assert Targets([], clients, topic, open) == [];
    }
    assert ts == (if a then [x] else []) + (if b then [y] else []);
    var tsX := if a then [x] else [];
    DeliveriesSnoc([], x, {}, MarketData(pair));
    if b {
      DeliveriesSnoc(tsX, y, {}, MarketData(pair));
    }
  }

  /** What the broadcast of one pair's quote writes. */
  function Quotes(pair: string, ids: seq<ClientId>, clients: map<ClientId, Connection>,
                  open: set<ClientId>, failing: set<ClientId>): seq<Delivery>
  {
    Deliveries(Targets(ids, clients, MarketDataTopic(pair), open), failing, MarketData(pair))
  }

  /**
   * `x` subscribed to EUR/USD and `y` to GBP/USD: a tick over five pairs that
   * list EUR/USD first, GBP/USD second and neither again writes exactly one
   * EUR/USD quote to `x` and one GBP/USD quote to `y`, and nothing else.
   */
  lemma TwoSubscribersTick(p0: string, p1: string, p2: string, p3: string, p4: string,
                           x: ClientId, y: ClientId, clients: map<ClientId, Connection>)
    requires p0 == "EUR/USD" && p1 == "GBP/USD"
    requires p2 != p0 && p2 != p1 && p3 != p0 && p3 != p1 && p4 != p0 && p4 != p1
    requires TwoSubscribers(x, y, clients)
    ensures TickOutput([p0, p1, p2, p3, p4], [x, y], clients, {x, y}, {})
         == [Delivery(x, MarketData("EUR/USD")), Delivery(y, MarketData("GBP/USD"))]
  {
    var a, b := Delivery(x, MarketData(p0)), Delivery(y, MarketData(p1));
    var s1 := [] + [p0];
    QuoteStep([], p0, x, y, clients, [], [a]);
    var s2 := s1 + [p1];
    QuoteStep(s1, p1, x, y, clients, [a], [a, b]);
    var s3 := s2 + [p2];
    QuoteStep(s2, p2, x, y, clients, [a, b], [a, b]);
    var s4 := s3 + [p3];
    QuoteStep(s3, p3, x, y, clients, [a, b], [a, b]);
    QuoteStep(s4, p4, x, y, clients, [a, b], [a, b]);
    FiveInOrder(p0, p1, p2, p3, p4);
  }

  /** Appending five elements one by one lists them in order. */
  lemma FiveInOrder<T>(p0: T, p1: T, p2: T, p3: T, p4: T)
    ensures [] + [p0] + [p1] + [p2] + [p3] + [p4] == [p0, p1, p2, p3, p4]
  {
  }

  /** One more pair in the two-subscriber tick: its quote goes to its subscriber, if any. */
  lemma QuoteStep(done: seq<string>, pair: string, x: ClientId, y: ClientId, clients: map<ClientId, Connection>,
                  before: seq<Delivery>, after: seq<Delivery>)
    requires TwoSubscribers(x, y, clients)
    requires TickOutput(done, [x, y], clients, {x, y}, {}) == before
    requires after == before + (if pair == "EUR/USD" then [Delivery(x, MarketData(pair))] else [])
                             + (if pair == "GBP/USD" then [Delivery(y, MarketData(pair))] else [])
    ensures TickOutput(done + [pair], [x, y], clients, {x, y}, {}) == after
  {
    PairQuotes(pair, x, y, clients, pair == "EUR/USD", pair == "GBP/USD");
    TickSnoc(done, pair, [x, y], clients, {x, y}, {});
  }

  /** The same scenario on the pairs the stream publishes. */
  lemma TwoSubscribersStreamTick(x: ClientId, y: ClientId, clients: map<ClientId, Connection>)
    requires TwoSubscribers(x, y, clients)
    ensures TickOutput(CurrencyPairs, [x, y], clients, {x, y}, {})
         == [Delivery(x, MarketData("EUR/USD")), Delivery(y, MarketData("GBP/USD"))]
  {
    var ps := CurrencyPairs;
    TwoSubscribersTick(ps[0], ps[1], ps[2], ps[3], ps[4], x, y, clients);
    assert ps == [ps[0], ps[1], ps[2], ps[3], ps[4]];
  }

  /**
   * After a client unsubscribes from some pairs, no later tick writes a quote of
   * one of those pairs to it, until it subscribes again.
   */
  lemma UnsubscribedGetsNoQuote(ids: seq<ClientId>, clients: map<ClientId, Connection>, id: ClientId,
                                removed: seq<string>, pairs: seq<string>, open: set<ClientId>,
                                failing: set<ClientId>, p: string)
    requires id in clients && p in removed
    ensures var c := clients[id];
      Delivery(id, MarketData(p))
        !in TickOutput(pairs, ids, clients[id := c.(subscriptions := Unsubscribed(c.subscriptions, removed))],
                       open, failing)
  {
    var c := clients[id];
    var after := clients[id := c.(subscriptions := Unsubscribed(c.subscriptions, removed))];
    TopicRoundTrip(p);
    assert NamesPairIn(MarketDataTopic(p), removed);
    TickDeliveredIff(pairs, ids, after, open, failing, Delivery(id, MarketData(p)));
  }

  /**
   * A client that one tick deletes because its send threw is not written to by
   * the next tick, which runs on what the first tick left.
   */
  lemma BrokenClientNotRetried(pairs: seq<string>, ids: seq<ClientId>, clients: map<ClientId, Connection>,
                               open: set<ClientId>, failing: set<ClientId>,
                               open': set<ClientId>, failing': set<ClientId>, d: Delivery)
    requires d.to in TickDropped(pairs, ids, clients, open, failing)
    ensures var gone := TickDropped(pairs, ids, clients, open, failing);
      d !in TickOutput(pairs, Without(ids, gone), clients - gone, open', failing')
  {
    var gone := TickDropped(pairs, ids, clients, open, failing);
    WithoutMembership(ids, gone, d.to);
    TickDeliveredIff(pairs, Without(ids, gone), clients - gone, open', failing', d);
  }
}

/**
 * The WebSocket server: a registry of connected clients (a JavaScript Map from
 * id to entry) driven one event at a time by Node's single event loop.
 * (backend/src/services/websocketServer.js)
 */
module WebSocket {
  import opened Wrappers
  import opened Topics
  import opened Protocol
  import opened Router
  import opened Fanout

  /** The pairs each market-data tick publishes, in order. */
  const CurrencyPairs: seq<string> := ["EUR/USD", "GBP/USD", "USD/JPY", "USD/CHF", "AUD/USD"]

  /** The replies `msgs`, all written to client `id`. */
  function To(id: ClientId, msgs: seq<ServerMessage>): seq<Delivery>
  {
    seq(|msgs|, i requires 0 <= i < |msgs| => Delivery(id, msgs[i]))
  }

  class WebSocketServer {
    const port: int
    /** `wss` holds a listening server. */
    var serverOpen: bool
    /** The market-data interval is set and not cleared. */
    var streaming: bool
    /** The registry `this.clients`: its entries ... */
    var clients: map<ClientId, Connection>
    /** ... and the order the Map iterates them in (insertion order). */
    var order: seq<ClientId>
    /** Every message written to a client socket so far, oldest first. */
    var outbox: seq<Delivery>

    /** `order` lists each registered id exactly once. */
    ghost predicate Valid()
      reads this
    {
      NoDup(order) && forall id :: id in order <==> id in clients
    }

    constructor(port: int)
      ensures Valid()
      ensures this.port == port && !serverOpen && !streaming
      ensures clients == map[] && order == [] && outbox == []
    {
      this.port := port;
      serverOpen, streaming := false, false;
      clients, order, outbox := map[], [], [];
    }

    /** Opens the listening server and starts the market-data interval. */
    method Start()
      requires Valid()
      modifies this
      ensures Valid() && serverOpen && streaming
      ensures clients == old(clients) && order == old(order) && outbox == old(outbox)
    {
      serverOpen := true;
      StartMarketDataStream();
    }

    /** Sets the interval that runs Tick once a second. */
    method StartMarketDataStream()
      modifies this`streaming
      ensures streaming
    {
      streaming := true;
    }

    /**
     * A new connection: registers `id` with no subscriptions and sends it a
     * welcome carrying the id. Map.set on an id already present replaces the
     * entry but keeps its place in the iteration order.
     */
    method OnConnection(id: ClientId, now: int)
      requires Valid() && serverOpen
      modifies this
      ensures Valid() && serverOpen == old(serverOpen) && streaming == old(streaming)
      ensures clients == old(clients)[id := Connection({}, now)]
      ensures order == if id in old(clients) then old(order) else old(order) + [id]
      ensures outbox == old(outbox) + [Delivery(id, Welcome(id))]
    {
      if id !in clients {
        order := order + [id];
      }
      clients := clients[id := Connection({}, now)];
      outbox := outbox + [Delivery(id, Welcome(id))];
    }

    /**
     * One raw message on the socket of client `id`: parse it, hand it to
     * HandleMessage, and answer a parse failure or a throwing handler with one
     * "Invalid JSON format" error. Only the sender's entry can change.
     */
    method OnMessage(id: ClientId, input: Inbound, now: int)
      requires Valid()
      modifies this
      ensures Valid() && order == old(order)
      ensures serverOpen == old(serverOpen) && streaming == old(streaming)
      ensures var o := Receive(if id in old(clients) then Some(old(clients)[id]) else None, input, now);
        && clients == (if o.entry.Some? then old(clients)[id := o.entry.value] else old(clients))
        && outbox == old(outbox) + To(id, o.replies)
    {
      match input
      case Unparseable =>
        outbox := outbox + [Delivery(id, ErrorReply(InvalidJsonFormat))];
      case Parsed(data) =>
        var threw := HandleMessage(id, data, now);
        if threw {
          outbox := outbox + [Delivery(id, ErrorReply(InvalidJsonFormat))];
        }
    }

    /** The action switch; reports whether it threw (only on `null` from a registered client). */
    method HandleMessage(id: ClientId, data: Data, now: int) returns (threw: bool)
      requires Valid()
      modifies this
      ensures Valid() && order == old(order)
      ensures serverOpen == old(serverOpen) && streaming == old(streaming)
      ensures id !in old(clients) ==> !threw && clients == old(clients) && outbox == old(outbox)
      ensures id in old(clients) ==>
        var r := Dispatch(old(clients)[id], data, now);
        && threw == r.threw
        && clients == old(clients)[id := r.entry]
        && outbox == old(outbox) + To(id, r.replies)
    {
      threw := false;
      if id !in clients {
        return;
      }
      clients := clients[id := clients[id].(lastActivity := now)];
      match data
      case NullData =>
        threw := true;
      case Fields(action, kind, pairs) =>
        if action == Some("subscribe") {
          HandleSubscription(id, kind, pairs);
        } else if action == Some("unsubscribe") {
          HandleUnsubscription(id, kind, pairs);
        } else if action == Some("ping") {
          outbox := outbox + [Delivery(id, Pong(now))];
        } else {
          outbox := outbox + [Delivery(id, ErrorReply(UnknownAction))];
        }
    }

    /** Adds the topic of each pair, one at a time, and acknowledges with the pairs. */
    method HandleSubscription(id: ClientId, kind: Option<string>, pairs: Option<seq<string>>)
      requires Valid()
      modifies this
      ensures Valid() && order == old(order)
      ensures serverOpen == old(serverOpen) && streaming == old(streaming)
      ensures id !in old(clients) ==> clients == old(clients) && outbox == old(outbox)
      ensures id in old(clients) ==>
        var r := SubscribeReaction(old(clients)[id], kind, pairs);
        clients == old(clients)[id := r.entry] && outbox == old(outbox) + To(id, r.replies)
    {
      if id !in clients {
        return;
      }
      var client := clients[id];
      if kind == Some(MarketDataType) && pairs.Some? {
        var ps := pairs.value;
        var subs := client.subscriptions;
        for i := 0 to |ps|
          invariant unchanged(this)
          invariant subs == Subscribed(client.subscriptions, ps[..i])
        {
          assert ps[..i + 1] == ps[..i] + [ps[i]];
          TopicsOfSnoc(ps[..i], ps[i]);
          subs := subs + {MarketDataTopic(ps[i])};
        }
        assert ps[..|ps|] == ps;
        clients := clients[id := client.(subscriptions := subs)];
        outbox := outbox + [Delivery(id, SubscriptionSuccess(ps))];
      }
    }

    /** Removes the topic of each pair, one at a time, and acknowledges with the pairs. */
    method HandleUnsubscription(id: ClientId, kind: Option<string>, pairs: Option<seq<string>>)
      requires Valid()
      modifies this
      ensures Valid() && order == old(order)
      ensures serverOpen == old(serverOpen) && streaming == old(streaming)
      ensures id !in old(clients) ==> clients == old(clients) && outbox == old(outbox)
      ensures id in old(clients) ==>
        var r := UnsubscribeReaction(old(clients)[id], kind, pairs);
        clients == old(clients)[id := r.entry] && outbox == old(outbox) + To(id, r.replies)
    {
      if id !in clients {
        return;
      }
      var client := clients[id];
      if kind == Some(MarketDataType) && pairs.Some? {
        var ps := pairs.value;
        var subs := client.subscriptions;
        for i := 0 to |ps|
          invariant unchanged(this)
          invariant subs == Unsubscribed(client.subscriptions, ps[..i])
        {
          assert ps[..i + 1] == ps[..i] + [ps[i]];
          TopicsOfSnoc(ps[..i], ps[i]);
          subs := subs - {MarketDataTopic(ps[i])};
        }
        assert ps[..|ps|] == ps;
        clients := clients[id := client.(subscriptions := subs)];
        outbox := outbox + [Delivery(id, UnsubscriptionSuccess(ps))];
      }
    }

    /** The socket closed: delete the entry; closing an id not registered changes nothing. */
    method OnClose(id: ClientId)
      requires Valid()
      modifies this
      ensures Valid() && outbox == old(outbox)
      ensures serverOpen == old(serverOpen) && streaming == old(streaming)
      ensures clients == old(clients) - {id}
      ensures order == Without(old(order), {id})
      ensures id !in old(clients) ==> clients == old(clients) && order == old(order)
    {
      var rest, left := clients - {id}, Without(order, {id});
      if id !in clients {
        WithoutNothing(order, {id});
        assert rest == clients;
      }
      WithoutNoDup(order, {id});
      forall x ensures x in left <==> x in rest {
        WithoutMembership(order, {id}, x);
      }
      clients := rest;
      order := left;
    }

    /** A socket error is only logged: the entry stays registered. */
    method OnError(id: ClientId)
      ensures clients == old(clients) && order == old(order) && outbox == old(outbox)
    {
    }

    /**
     * Sends `msg` to every registered client that holds `topic` and whose
     * socket is open, in Map order; a client whose send throws is deleted and the
     * iteration goes on with the rest.
     */
    method Broadcast(topic: Topic, msg: ServerMessage, open: set<ClientId>, failing: set<ClientId>)
      requires Valid()
      modifies this
      ensures Valid()
      ensures serverOpen == old(serverOpen) && streaming == old(streaming)
      ensures outbox == old(outbox) + Deliveries(Targets(old(order), old(clients), topic, open), failing, msg)
      ensures clients == old(clients) - Dropped(old(order), old(clients), topic, open, failing)
      ensures order == Without(old(order), Dropped(old(order), old(clients), topic, open, failing))
    {
      // forEach visits every entry present when it starts, with the value it had then:
      // only the visited entry is ever deleted
      var ids, start := order, clients;
      ghost var base := outbox;
      BroadcastStart(ids, start, topic, open, failing);
      assert NoDup(ids) && forall x :: x in ids <==> x in start;
      for i := 0 to |ids|
        invariant serverOpen == old(serverOpen) && streaming == old(streaming)
        invariant outbox == base + Deliveries(Targets(ids[..i], start, topic, open), failing, msg)
        invariant clients == start - Dropped(ids[..i], start, topic, open, failing)
        invariant order == Without(ids, Dropped(ids[..i], start, topic, open, failing))
      {
        ghost var gone := Dropped(ids[..i], start, topic, open, failing);
        BroadcastStep(ids, i, start, topic, open, failing, msg);
        var id := ids[i];
        assert id in start;
        ghost var sent := Deliveries(Targets(ids[..i], start, topic, open), failing, msg);
        Visit(id, start[id], topic, msg, open, failing);
        ConcatAssoc(base, sent, [Delivery(id, msg)]);
      }
      assert ids[..|ids|] == ids;
      ghost var d := Dropped(ids, start, topic, open, failing);
      assert order == Without(ids, d) && clients == start - d;
      BroadcastEnd(ids, start, d);
    }

    /** The body of the broadcast loop for one entry. */
    method Visit(id: ClientId, client: Connection, topic: Topic, msg: ServerMessage,
                 open: set<ClientId>, failing: set<ClientId>)
      modifies this
      ensures serverOpen == old(serverOpen) && streaming == old(streaming)
      ensures var hit := topic in client.subscriptions && id in open;
        && outbox == old(outbox) + (if hit && id !in failing then [Delivery(id, msg)] else [])
        && clients == (if hit && id in failing then old(clients) - {id} else old(clients))
        && order == (if hit && id in failing then Without(old(order), {id}) else old(order))
    {
      if topic in client.subscriptions && id in open {
        if id in failing {
          // the send threw: the client is deleted
          clients := clients - {id};
          order := Without(order, {id});
        } else {
          outbox := outbox + [Delivery(id, msg)];
        }
      }
    }

    /**
     * Sends a trade update to every registered client whose socket is open,
     * whatever it subscribed to; a send that throws is logged and the client kept.
     */
    method BroadcastTradeUpdate(trade: string, open: set<ClientId>, failing: set<ClientId>)
      requires Valid()
      modifies this
      ensures Valid()
      ensures serverOpen == old(serverOpen) && streaming == old(streaming)
      ensures clients == old(clients) && order == old(order)
      ensures outbox == old(outbox) + Deliveries(OpenIds(old(order), open), failing, TradeUpdate(trade))
    {
      var msg := TradeUpdate(trade);
      var ids := order;
      ghost var base := outbox;
      for i := 0 to |ids|
        invariant clients == old(clients) && order == ids
        invariant serverOpen == old(serverOpen) && streaming == old(streaming)
        invariant outbox == base + Deliveries(OpenIds(ids[..i], open), failing, msg)
      {
        var id := ids[i];
        ghost var sent := Deliveries(OpenIds(ids[..i], open), failing, msg);
        assert ids[..i + 1] == ids[..i] + [id];
        OpenIdsSnoc(ids[..i], id, open);
        if id in open {
          DeliveriesSnoc(OpenIds(ids[..i], open), id, failing, msg);
          if id !in failing {
            outbox := outbox + [Delivery(id, msg)];
            ConcatAssoc(base, sent, [Delivery(id, msg)]);
          } else {
            assert Deliveries(OpenIds(ids[..i + 1], open), failing, msg) == sent;
          }
        } else {
          assert OpenIds(ids[..i + 1], open) == OpenIds(ids[..i], open);
        }
      }
      assert ids[..|ids|] == ids;
    }

    /** One run of the market-data interval: one broadcast per pair, on that pair's topic. */
    method Tick(open: set<ClientId>, failing: set<ClientId>)
      requires Valid() && streaming
      modifies this
      ensures Valid()
      ensures serverOpen == old(serverOpen) && streaming == old(streaming)
      ensures outbox == old(outbox) + TickOutput(CurrencyPairs, old(order), old(clients), open, failing)
      ensures clients == old(clients) - TickDropped(CurrencyPairs, old(order), old(clients), open, failing)
      ensures order == Without(old(order), TickDropped(CurrencyPairs, old(order), old(clients), open, failing))
    {
      BroadcastPairs(CurrencyPairs, open, failing);
    }

    /** The `forEach` over the pair list inside the interval callback. */
    method BroadcastPairs(pairs: seq<string>, open: set<ClientId>, failing: set<ClientId>)
      requires Valid()
      modifies this
      ensures Valid()
      ensures serverOpen == old(serverOpen) && streaming == old(streaming)
      ensures outbox == old(outbox) + TickOutput(pairs, old(order), old(clients), open, failing)
      ensures clients == old(clients) - TickDropped(pairs, old(order), old(clients), open, failing)
      ensures order == Without(old(order), TickDropped(pairs, old(order), old(clients), open, failing))
    {
      ghost var ids, start, base := order, clients, outbox;
      WithoutNothing(ids, {});
      assert start - {} == start;
      for k := 0 to |pairs|
        invariant Valid()
        invariant serverOpen == old(serverOpen) && streaming == old(streaming)
        invariant outbox == base + TickOutput(pairs[..k], ids, start, open, failing)
        invariant clients == start - TickDropped(pairs[..k], ids, start, open, failing)
        invariant order == Without(ids, TickDropped(pairs[..k], ids, start, open, failing))
      {
        var pair := pairs[k];
        var topic := MarketDataTopic(pair);
        ghost var done := pairs[..k];
        ghost var gone := TickDropped(done, ids, start, open, failing);
        ghost var ids', start' := Without(ids, gone), start - gone;
        ghost var sent := outbox;
        assert pairs[..k + 1] == done + [pair];
        TickStep(done, pair, ids, start, open, failing);
        Broadcast(topic, MarketData(pair), open, failing);
        ghost var d := Deliveries(Targets(ids', start', topic, open), failing, MarketData(pair));
        assert outbox == sent + d;
        ConcatAssoc(base, TickOutput(done, ids, start, open, failing), d);
        assert clients == start' - Dropped(ids', start', topic, open, failing);
        assert order == Without(ids', Dropped(ids', start', topic, open, failing));
      }
      assert pairs[..|pairs|] == pairs;
    }

    /** Clears the interval and closes the listening server; the registry is left as it is. */
    method Stop()
      modifies this
      ensures !serverOpen && !streaming
      ensures clients == old(clients) && order == old(order) && outbox == old(outbox)
    {
      streaming := false;
      serverOpen := false;
    }
  }
}

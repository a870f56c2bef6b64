# AlphaFx Trader: WebSocket fan-out and trade rules in Dafny

This project models two parts of the AlphaFx Trader backend and proves properties about them.

The first is the WebSocket server (`backend/src/services/websocketServer.js`). It is a class that holds a registry of connected clients. Each client has a set of topic subscriptions. The server does the following:
- welcomes new connections;
- routes `subscribe`, `unsubscribe` and `ping` messages;
- publishes market-data quotes once a second to the clients subscribed to each currency pair;
- pushes trade updates to every open client;
- deletes a client on close, or when a quote cannot be written to it.

The second is the trading controller (`backend/src/controllers/tradingController.js`). Its `executeTrade` validates a request, checks the daily volume limit, looks up a mock price and builds the trade record. Its `controlAlgorithms` checks the start/stop action and counts the affected algorithms.

Modules:

- `Wrappers`: `Option` and `Result`.
- `Topics`: the `market_data:<pair>` topic strings and the set algebra of a subscription set. This includes the last-write-wins law for any sequence of subscribe and unsubscribe requests.
- `Protocol`: client ids, registry entries, inbound payloads, outbound messages, and deliveries (one message written to one socket).
- `Router`: the effect of one inbound message on the sender's entry, and the replies it sends, as pure functions.
- `Fanout`: what a broadcast, a trade update and a whole market-data tick write and whom they delete. These are functions of the registry they start from, with membership and composition lemmas.
- `WebSocket`: the class `WebSocketServer`. It has:
  - a `clients` map;
  - an `order` sequence, which records the Map's insertion order and hence the order `forEach` visits entries in;
  - an `outbox` of every message written.

  Each event handler is a method. The broadcast loops are proved against the `Fanout` functions.
- `Trading`: the pure rules of `executeTrade` and `controlAlgorithms`.
- `Scenarios`: tick-level consequences, with the registry given concretely.

Abstractions:

- Socket readiness and send failure are inputs to the broadcast methods:
  - `open` is the set of clients whose socket is OPEN;
  - `failing` is the set of clients whose `send` throws.
- The current time is a parameter `now`. Client ids are supplied by the caller.
- JSON parsing is an input `Inbound`: either unparseable text, or a parsed value.
- Trade quantities and prices are `real`, which is exact arithmetic standing in for JavaScript numbers.
- The trades query result and the `MAX_TRADING_VOLUME` setting are inputs.

Some of the code's behaviour may be unexpected. The model follows the code:
- A socket `error` event does not remove the client; only `close` does.
- `stop` clears the interval and closes the server, but leaves the registry as it is.
- A failed trade-update send is logged and the client is kept. A failed quote send deletes the client.
- A parsed `null` payload from a registered client makes the handler throw. The catch then answers "Invalid JSON format".

## Model

| member | source | states |
|---|---|---|
| Topics.TopicRoundTrip | backend/src/services/websocketServer.js:93 | the pair can be recovered from its `market_data:` topic |
| Topics.TopicInjective | backend/src/services/websocketServer.js:153 | two pairs give the same topic iff they are the same pair, so a quote reaches only that pair's subscribers |
| Topics.TopicsOf | backend/src/services/websocketServer.js:92-94 | the topics a `pairs` array names are exactly the topics whose pair is an element |
| Topics.TopicsOfSnoc | backend/src/services/websocketServer.js:92-94 | each `forEach` step adds the topic of one more pair |
| Topics.Subscribed | backend/src/services/websocketServer.js:91-94 | after subscribing, a topic is held iff it was held before or names one of the pairs |
| Topics.Unsubscribed | backend/src/services/websocketServer.js:110-113 | after unsubscribing, a topic is held iff it was held and names none of the pairs |
| Topics.SubscribeIdempotent | backend/src/services/websocketServer.js:91-94 | subscribing twice to the same pairs equals subscribing once |
| Topics.UnsubscribeAbsentIsNoOp | backend/src/services/websocketServer.js:111-113 | unsubscribing from topics not held leaves the set unchanged |
| Topics.UnsubscribeUndoesSubscribe | backend/src/services/websocketServer.js:110-113 | unsubscribe is the inverse of a subscribe to pairs not held before |
| Topics.ReplayLastWriteWins | backend/src/services/websocketServer.js:85-120 | after any sequence of accepted requests, a topic is held iff the last request naming it was a subscribe, or none named it and it was held at the start |
| Router.Receive | backend/src/services/websocketServer.js:25-36 | the sender stays registered iff it was; at most one reply is sent; unparseable text gets exactly one "Invalid JSON format" and changes nothing; an unregistered sender of parsed text gets nothing; a registered sender's activity time is updated |
| Router.ErrorReplyIff | backend/src/services/websocketServer.js:25-82 | an error reply is sent iff the text does not parse, or a registered client sent `null` ("Invalid JSON format"), or it sent an unrecognised action ("Unknown action") |
| Router.PingYieldsPong | backend/src/services/websocketServer.js:74-76 | a ping yields exactly one pong carrying the time and changes no subscription |
| Router.SubscribeEffect | backend/src/services/websocketServer.js:85-101 | an accepted subscribe adds exactly the pairs' topics and echoes the pairs once; with another type or no array nothing but the activity time changes and nothing is sent |
| Router.UnsubscribeEffect | backend/src/services/websocketServer.js:104-119 | an accepted unsubscribe removes exactly the pairs' topics and echoes them once; otherwise nothing but the activity time changes |
| Router.OnlyRouterChangesSubscriptions | backend/src/services/websocketServer.js:61-120 | a subscription set changes only through an accepted subscribe or unsubscribe |
| Fanout.TargetsMembership | backend/src/services/websocketServer.js:159-160 | a broadcast tries a client iff it is registered, holds the topic and its socket is open |
| Fanout.OpenIdsMembership | backend/src/services/websocketServer.js:177-178 | a trade update tries a client iff it is registered and open, whatever its subscriptions |
| Fanout.DeliveriesMembership | backend/src/services/websocketServer.js:161-166 | a tried client is written the message iff its send does not throw |
| Fanout.WithoutMembership | backend/src/services/websocketServer.js:165 | removing ids from the order keeps exactly the ids not removed |
| Fanout.DroppedMembership | backend/src/services/websocketServer.js:160-166 | a broadcast deletes a client iff it is registered, holds the topic, is open and its send throws |
| Fanout.DroppedFailing | backend/src/services/websocketServer.js:163-166 | only clients whose send throws are deleted |
| Fanout.TargetsNoDup | backend/src/services/websocketServer.js:159 | a broadcast tries each client at most once |
| Fanout.OpenIdsNoDup | backend/src/services/websocketServer.js:177 | a trade update tries each client at most once |
| Fanout.DeliveriesNoDup | backend/src/services/websocketServer.js:159-168 | no client is written the same broadcast twice |
| Fanout.WithoutNoDup | backend/src/services/websocketServer.js:165 | deleting ids keeps the order free of duplicates |
| Fanout.WithoutNothing | backend/src/services/websocketServer.js:40 | deleting an id that is absent leaves the order unchanged |
| Fanout.WithoutWithout | backend/src/services/websocketServer.js:165 | deleting one set of ids and then another equals deleting both at once |
| Fanout.TargetsAfterRemoval | backend/src/services/websocketServer.js:159-160 | after some clients are deleted, a broadcast tries the same clients as before, minus the deleted ones |
| Fanout.DeliveriesSkipFailing | backend/src/services/websocketServer.js:161-166 | removing clients whose send throws from a target list does not change what is written |
| Fanout.DroppedAfterRemoval | backend/src/services/websocketServer.js:160-166 | after clients are deleted, a broadcast deletes what it would have deleted anyway, minus those clients |
| Fanout.BroadcastStep | backend/src/services/websocketServer.js:159-168 | visiting one more entry appends at most that client's message, and deletes at most that client |
| Fanout.BroadcastStart | backend/src/services/websocketServer.js:159 | before any entry is visited, nothing has been written or deleted |
| Fanout.BroadcastEnd | backend/src/services/websocketServer.js:165 | deleting a set of clients keeps the order and the map in step |
| Fanout.BroadcastDeliveredIff | backend/src/services/websocketServer.js:158-169 | a broadcast writes to a client iff it is registered, holds the topic, is open and its send does not throw; no other client's failure matters |
| Fanout.TradeUpdateDeliveredIff | backend/src/services/websocketServer.js:171-186 | a trade update writes to a client iff it is registered, open and its send does not throw |
| Fanout.TradeUpdateNoneOpen | backend/src/services/websocketServer.js:178 | with no open socket, a trade update writes nothing |
| Fanout.TickSnoc | backend/src/services/websocketServer.js:135-154 | a tick is the broadcasts of its pairs in list order |
| Fanout.TickDeliveredIff | backend/src/services/websocketServer.js:135-153 | a tick writes the quote of a pair to a client iff the pair is listed, and the client is registered, holds that pair's topic, is open and does not fail |
| Fanout.TickDroppedIff | backend/src/services/websocketServer.js:153-166 | a tick deletes a client iff it holds some listed pair's topic, is open and its send throws |
| Fanout.TickDroppedFailing | backend/src/services/websocketServer.js:153-166 | a tick deletes only failing clients |
| Fanout.TickStep | backend/src/services/websocketServer.js:135-154 | a pair's broadcast, run on the registry the earlier pairs left, writes what it would write on the starting registry and deletes the rest of its drop set |
| WebSocket.WebSocketServer.constructor | backend/src/services/websocketServer.js:5-10 | a new server has an empty registry, no listening server and no interval |
| WebSocket.WebSocketServer.Start | backend/src/services/websocketServer.js:12-59 | starting opens the server and starts the stream, and leaves the registry unchanged |
| WebSocket.WebSocketServer.StartMarketDataStream | backend/src/services/websocketServer.js:134-155 | the interval is set |
| WebSocket.WebSocketServer.OnConnection | backend/src/services/websocketServer.js:15-52 | only while the server is listening: the id is registered with no subscriptions and the current time; a new id goes last in iteration order; exactly one welcome carrying the id is written |
| WebSocket.WebSocketServer.OnMessage | backend/src/services/websocketServer.js:25-36 | the registry and the written replies are exactly as `Router.Receive` says; the order and the other entries are unchanged |
| WebSocket.WebSocketServer.HandleMessage | backend/src/services/websocketServer.js:61-83 | an unregistered id is a no-op; otherwise the entry and replies follow the action switch, and the handler throws only on `null` |
| WebSocket.WebSocketServer.HandleSubscription | backend/src/services/websocketServer.js:85-102 | the loop leaves the sender's set equal to `Topics.Subscribed`, and one acknowledgement is written; nothing else changes |
| WebSocket.WebSocketServer.HandleUnsubscription | backend/src/services/websocketServer.js:104-120 | the loop leaves the sender's set equal to `Topics.Unsubscribed`, and one acknowledgement is written; nothing else changes |
| WebSocket.WebSocketServer.OnClose | backend/src/services/websocketServer.js:38-41 | the entry is deleted from map and order; closing an absent id changes nothing |
| WebSocket.WebSocketServer.OnError | backend/src/services/websocketServer.js:43-45 | an error event changes nothing |
| WebSocket.WebSocketServer.Broadcast | backend/src/services/websocketServer.js:158-169 | the loop writes exactly `Deliveries(Targets(..))` in Map order, and deletes exactly `Dropped(..)` from map and order; no client is added and the registry invariant holds |
| WebSocket.WebSocketServer.Visit | backend/src/services/websocketServer.js:160-167 | one entry: write if subscribed and open; if the send throws, delete instead |
| WebSocket.WebSocketServer.BroadcastTradeUpdate | backend/src/services/websocketServer.js:171-186 | the loop writes to every open client in Map order, skips failures, and removes no client |
| WebSocket.WebSocketServer.BroadcastPairs | backend/src/services/websocketServer.js:135-154 | one broadcast per pair on its topic: the outbox grows by `TickOutput` and the registry loses `TickDropped` |
| WebSocket.WebSocketServer.Tick | backend/src/services/websocketServer.js:134-155 | one interval run over the five fixed pairs, possible only while the interval is set |
| WebSocket.WebSocketServer.Stop | backend/src/services/websocketServer.js:192-202 | the interval is cleared and the server closed, so no further `Tick` or `OnConnection` can run; the registry is untouched |
| Scenarios.TwoSubscribersTick | backend/src/services/websocketServer.js:134-169 | with x subscribed to EUR/USD and y to GBP/USD, a tick writes exactly one EUR/USD quote to x, then one GBP/USD quote to y, and nothing else |
| Scenarios.TwoSubscribersStreamTick | backend/src/services/websocketServer.js:123-153 | the same outcome over the five pairs the stream publishes |
| Scenarios.UnsubscribedGetsNoQuote | backend/src/services/websocketServer.js:110-113 | after unsubscribing from a pair, no tick writes that pair's quote to the client |
| Scenarios.BrokenClientNotRetried | backend/src/services/websocketServer.js:163-166 | a client deleted by one tick for a failed send is not written to by the next |
| Trading.Message | backend/src/controllers/tradingController.js:20-50 | the rejection texts: "Missing required trade parameters" exactly for missing fields, "Trading volume limit exceeded" for the volume limit |
| Trading.MaxVolume | backend/src/controllers/tradingController.js:28 | the limit is the setting when present, otherwise 10000000 |
| Trading.SumConcat | backend/src/controllers/tradingController.js:38 | the volume of two batches of trades is the sum of their volumes |
| Trading.SumNonNegative | backend/src/controllers/tradingController.js:38 | quantities that are none of them negative give a volume that is not negative |
| Trading.CurrentVolume | backend/src/controllers/tradingController.js:38 | no query data gives volume 0 |
| Trading.CurrentVolumeNonNegative | backend/src/controllers/tradingController.js:38 | non-negative quantities give a non-negative volume |
| Trading.ExecutedPrice | backend/src/controllers/tradingController.js:53-61 | a pair in the table gets its table price, any other pair 1.0; the price is always positive |
| Trading.UpperChar | backend/src/controllers/tradingController.js:71 | a lower-case ASCII letter becomes its capital; every other character is kept |
| Trading.Upper | backend/src/controllers/tradingController.js:71 | the side keeps its length, and each character is upper-cased on its own: a lower-case letter becomes its capital, every other character is kept |
| Trading.UpperIdempotent | backend/src/controllers/tradingController.js:71 | upper-casing an upper-cased side changes nothing |
| Trading.Protective | backend/src/controllers/tradingController.js:77-78 | stop-loss and take-profit are stored iff truthy, otherwise null |
| Trading.OrDefault | backend/src/controllers/tradingController.js:12-16 | a destructuring default applies only to an absent field |
| Trading.Record | backend/src/controllers/tradingController.js:64-81 | the record carries the trade id, pair, quantity and upper-cased side; status FILLED; profit/loss 0; the table price; stop-loss and take-profit as given when truthy, null otherwise; algorithm, execution type and user id as given when present, otherwise MANUAL, MARKET, demo-user |
| Trading.ExecuteTrade | backend/src/controllers/tradingController.js:6-61 | missing fields are rejected first; otherwise the request is rejected iff current volume plus quantity exceeds the limit, echoing all three; an accepted request yields the record |
| Trading.ValidationBeforeVolume | backend/src/controllers/tradingController.js:19-25 | a request missing a field gets the same rejection whatever the volumes and limit |
| Trading.ExactLimitAccepted | backend/src/controllers/tradingController.js:40 | reaching the limit exactly is allowed |
| Trading.AcceptedStaysWithinLimit | backend/src/controllers/tradingController.js:38-50 | after an accepted trade is added to today's trades, the day's volume is at most the limit |
| Trading.RejectionPersists | backend/src/controllers/tradingController.js:38-50 | a request rejected for volume stays rejected after more non-negative trades fill |
| Trading.StopStatusMisspelt | backend/src/controllers/tradingController.js:271 | the status as written says "stoped" for stop |
| Trading.Status | backend/src/controllers/tradingController.js:271 | the corrected status equals the written one for start, and says "stopped" for stop |
| Trading.ControlAlgorithms | backend/src/controllers/tradingController.js:251-273 | succeeds iff the action is start or stop, with the fixed error otherwise; echoes the action; counts the algorithm types, or 1 when there are none; the status is the action with "ed" appended, as written |
| Trading.ControlAlgorithmsIntended | backend/src/controllers/tradingController.js:251-273 | the same reply with the status spelt correctly: succeeds iff start or stop, "stopped" for stop |
| Trading.IntendedDiffersOnlyOnStop | backend/src/controllers/tradingController.js:271 | the corrected and the written reply agree on every action except stop, where only the status differs |

## Left out

- Quote contents: prices, `Math.random` variation, the spread, `toFixed` and timestamps are floats and randomness. A quote is modelled only by its pair.
- The `ws` library, the listening socket and the port's environment default: the port is a constructor parameter.
- Timers: `setInterval`/`clearInterval` become the `streaming` flag. `Tick` is one run of the interval.
  - A second `start` would leak an interval; that is not modelled.
  - One `Tick` uses one `open` and one `failing` set for all five pairs.
- `Date.now` is the `now` parameter. The random `generateClientId` is replaced by an id the caller supplies.
- Direct replies (welcome, pong, acknowledgements, error replies) are taken never to throw. In the code, a ping whose `send` throws would be caught and answered with "Invalid JSON format"; that path is not modelled.
- The `message` texts of the welcome and subscription acknowledgements, including the `pairs.join` text, are not modelled.
- Non-string elements of `pairs` are represented by their string form. Non-string `action` and `type` values read as absent.
- WebSocket.WebSocketServer.HandleSubscription, WebSocket.WebSocketServer.HandleUnsubscription: an element of `pairs` whose string conversion throws (an object whose `toString` is not a function) is not modelled. In the code, the topics of the earlier elements are already added or removed when the exception escapes the `forEach`; the catch then answers "Invalid JSON format" and no acknowledgement is sent.
- Logging (`console.log`/`console.error`) is not modelled.
- Supabase queries and inserts are not modelled: today's FILLED quantities are an input, and the insert is taken to succeed. Its "Failed to execute trade" path and the outer "Internal server error" catch are not modelled.
- `getTradingHistory`, `getCurrentPositions`, `getAlgorithmsStatus` and `getTradeById` are database plumbing and are not part of this model.
- The commission `quantity * 0.00005` and `executed_at` are float arithmetic and the clock.
- Trading.TruthyNumber: NaN is not modelled; a quantity is falsy only when absent or zero.
- Trading.MaxVolume: the setting is taken as the number its text denotes. A non-numeric text, which JavaScript compares as NaN, is not modelled.
- Trading.ExecuteTrade: a quantity sent as a string, where JavaScript `+` would concatenate, is not modelled. Quantities are numbers.
- Trading.CurrentVolume: a sum that is 0 or NaN falls back to 0 through `|| 0`. Only the zero case coincides with the model.
- Trading.ExecutedPrice: keys inherited from the object prototype (such as `constructor`) are not modelled.
- Trading.Upper, Trading.UpperChar: only ASCII letters are upper-cased. Full Unicode case mapping, which can change a string's length, is not modelled.
- Trading.OrDefault: a field sent as `null` keeps `null` in the code; the model has only absent or present.
- Trading.ControlAlgorithms: a `null` `algorithmTypes` would throw and yield "Failed to control algorithms"; that path is not modelled. The `currencyPairs` field is only logged.

## Findings

| source | as written | input that shows it | evidently intended | confidence | as-written member | corrected member |
|---|---|---|---|---|---|---|
| backend/src/controllers/tradingController.js:271 | the status is built by appending "ed" to the action | action "stop" gives "Algorithmic trading stoped successfully" | "Algorithmic trading stopped successfully" | high (not executed) | Trading.StopStatusMisspelt | Trading.ControlAlgorithmsIntended |

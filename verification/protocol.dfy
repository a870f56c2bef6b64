/**
 * The values the WebSocket server works with: client ids, the registry entry of
 * a client, what a client sends and what the server sends back.
 */
module Protocol {
  import opened Wrappers
  import opened Topics

  /**
   * A client id. The server draws it from the clock and a random number
   * (backend/src/services/websocketServer.js:188-190); here ids are abstract values
   * supplied by the caller of the connection handler.
   */
  type ClientId = string

  /**
   * The registry entry of a connected client: its subscription set and the
   * time of its last inbound message. The socket itself is identified with the id.
   */
  datatype Connection = Connection(subscriptions: set<Topic>, lastActivity: int)

  /** The only topic type the router acts on. */
  const MarketDataType: string := "market_data"

  const InvalidJsonFormat: string := "Invalid JSON format"
  const UnknownAction: string := "Unknown action"

  /**
   * A parsed inbound payload. `null` is its own case because reading a field of it
   * throws; any other JSON value is read field by field: a field that is absent or
   * not a string reads as None (it can never equal a string literal), and `pairs` is
   * Some only when it is an array, each element given by its string form.
   */
  datatype Data =
    | NullData
    | Fields(action: Option<string>, kind: Option<string>, pairs: Option<seq<string>>)

  /** One raw inbound message: either text that is not JSON, or a parsed value. */
  datatype Inbound = Unparseable | Parsed(data: Data)

  /** Messages the server sends; quote prices, timestamps and texts are left out. */
  datatype ServerMessage =
    | Welcome(clientId: ClientId)
    | ErrorReply(message: string)
    | Pong(timestamp: int)
    | SubscriptionSuccess(subscribed: seq<string>)
    | UnsubscriptionSuccess(unsubscribed: seq<string>)
    | MarketData(pair: string)
    | TradeUpdate(trade: string)

  /** One message written to one client's socket. */
  datatype Delivery = Delivery(to: ClientId, msg: ServerMessage)

  /** No element occurs twice. */
  predicate NoDup<T(==)>(s: seq<T>)
  {
    forall i, j :: 0 <= i < j < |s| ==> s[i] != s[j]
  }

  /** Regrouping a concatenation of three sequences. */
  lemma ConcatAssoc<T>(a: seq<T>, b: seq<T>, c: seq<T>)
    ensures (a + b) + c == a + (b + c)
  {
  }
}

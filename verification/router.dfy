/**
 * What handling one inbound message does to the sender's registry entry and
 * which replies it sends back: the message handler with its parse-error catch,
 * the action switch and the two subscription handlers
 * (backend/src/services/websocketServer.js:25-36, 61-120).
 */
module Router {
  import opened Wrappers
  import opened Topics
  import opened Protocol

  /** A handler's effect on one entry: the new entry, the replies to its client, whether it threw. */
  datatype Reaction = Reaction(entry: Connection, replies: seq<ServerMessage>, threw: bool)

  /** The effect of a whole inbound message on the sender's entry (None: the sender is not registered). */
  datatype Outcome = Outcome(entry: Option<Connection>, replies: seq<ServerMessage>)

  /** A subscription request is acted on only for the market-data type and an array of pairs. */
  predicate Accepts(kind: Option<string>, pairs: Option<seq<string>>)
  {
    kind == Some(MarketDataType) && pairs.Some?
  }

  function SubscribeReaction(c: Connection, kind: Option<string>, pairs: Option<seq<string>>): Reaction
  {
    if Accepts(kind, pairs)
    then Reaction(c.(subscriptions := Subscribed(c.subscriptions, pairs.value)),
                  [SubscriptionSuccess(pairs.value)], false)
    else Reaction(c, [], false)
  }

  function UnsubscribeReaction(c: Connection, kind: Option<string>, pairs: Option<seq<string>>): Reaction
  {
    if Accepts(kind, pairs)
    then Reaction(c.(subscriptions := Unsubscribed(c.subscriptions, pairs.value)),
                  [UnsubscriptionSuccess(pairs.value)], false)
    else Reaction(c, [], false)
  }

  /** The action switch for a registered client; reading the action of `null` throws. */
  function Dispatch(c: Connection, data: Data, now: int): Reaction
  {
    var touched := c.(lastActivity := now);
    match data
    case NullData => Reaction(touched, [], true)
    case Fields(action, kind, pairs) =>
      if action == Some("subscribe") then SubscribeReaction(touched, kind, pairs)
      else if action == Some("unsubscribe") then UnsubscribeReaction(touched, kind, pairs)
      else if action == Some("ping") then Reaction(touched, [Pong(now)], false)
      else Reaction(touched, [ErrorReply(UnknownAction)], false)
  }

  /**
   * One inbound message from a client whose entry is `entry`: text that does not
   * parse, and a handler that throws, are both answered with one "Invalid JSON
   * format" error; a parsed message from an unregistered client is ignored.
   */
  function Receive(entry: Option<Connection>, input: Inbound, now: int): (r: Outcome)
    ensures r.entry.Some? <==> entry.Some?
    ensures |r.replies| <= 1
    ensures input.Unparseable? ==> r == Outcome(entry, [ErrorReply(InvalidJsonFormat)])
    ensures entry.None? ==> r.entry.None? && (input.Parsed? ==> r.replies == [])
    ensures entry.Some? && input.Parsed? ==> r.entry.value.lastActivity == now
  {
    match input
    case Unparseable => Outcome(entry, [ErrorReply(InvalidJsonFormat)])
    case Parsed(data) =>
      if entry.None? then Outcome(None, [])
      else
        var r := Dispatch(entry.value, data, now);
        Outcome(Some(r.entry), r.replies + if r.threw then [ErrorReply(InvalidJsonFormat)] else [])
  }

  /** The action a parsed message names, if it is one the switch recognises. */
  predicate KnownAction(data: Data)
  {
    data.Fields? && data.action in {Some("subscribe"), Some("unsubscribe"), Some("ping")}
  }

  /**
   * An error reply is sent exactly for unparseable text, for `null` from a
   * registered client, and for an unrecognised action from a registered client;
   * its reason says which.
   */
  lemma ErrorReplyIff(entry: Option<Connection>, input: Inbound, now: int, reason: string)
    ensures ErrorReply(reason) in Receive(entry, input, now).replies
        <==> ((input.Unparseable? && reason == InvalidJsonFormat)
              || (entry.Some? && input.Parsed? && input.data.NullData? && reason == InvalidJsonFormat)
              || (entry.Some? && input.Parsed? && input.data.Fields? && !KnownAction(input.data)
                  && reason == UnknownAction))
  {
  }

  /** A ping from a registered client is answered with exactly one pong and changes no subscription. */
  lemma PingYieldsPong(c: Connection, kind: Option<string>, pairs: Option<seq<string>>, now: int)
    ensures Receive(Some(c), Parsed(Fields(Some("ping"), kind, pairs)), now)
         == Outcome(Some(c.(lastActivity := now)), [Pong(now)])
  {
  }

  /**
   * A subscribe from a registered client adds the topics of `pairs` and echoes
   * them in one success reply; with another type or no array it changes nothing
   * but the activity time, and sends nothing.
   */
  lemma SubscribeEffect(c: Connection, kind: Option<string>, pairs: Option<seq<string>>, now: int)
    ensures var r := Receive(Some(c), Parsed(Fields(Some("subscribe"), kind, pairs)), now);
      if Accepts(kind, pairs)
      then r == Outcome(Some(Connection(Subscribed(c.subscriptions, pairs.value), now)),
                        [SubscriptionSuccess(pairs.value)])
      else r == Outcome(Some(c.(lastActivity := now)), [])
  {
  }

  /**
   * An unsubscribe from a registered client removes exactly the topics of
   * `pairs` and echoes them; with another type or no array it changes nothing but
   * the activity time, and sends nothing.
   */
  lemma UnsubscribeEffect(c: Connection, kind: Option<string>, pairs: Option<seq<string>>, now: int)
    ensures var r := Receive(Some(c), Parsed(Fields(Some("unsubscribe"), kind, pairs)), now);
      if Accepts(kind, pairs)
      then r == Outcome(Some(Connection(Unsubscribed(c.subscriptions, pairs.value), now)),
                        [UnsubscriptionSuccess(pairs.value)])
      else r == Outcome(Some(c.(lastActivity := now)), [])
  {
  }

  /** Only an accepted subscribe or unsubscribe changes a subscription set. */
  lemma OnlyRouterChangesSubscriptions(c: Connection, input: Inbound, now: int)
    ensures var r := Receive(Some(c), input, now);
      r.entry.value.subscriptions != c.subscriptions ==>
        input.Parsed? && input.data.Fields?
        && input.data.action in {Some("subscribe"), Some("unsubscribe")}
        && Accepts(input.data.kind, input.data.pairs)
  {
  }
}

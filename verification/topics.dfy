/**
 * Topic strings and the set algebra of a client's subscriptions.
 * A market-data topic is the literal prefix "market_data:" followed by the pair
 * (backend/src/services/websocketServer.js:93, 112, 153).
 */
module Topics {
  import opened Wrappers

  type Topic = string

  const MarketDataPrefix: string := "market_data:"

  /** The topic a client holds for `pair` after subscribing to it. */
  function MarketDataTopic(pair: string): Topic
  {
    MarketDataPrefix + pair
  }

  /** Recovers the pair from a market-data topic; None for any other topic. */
  function PairOf(t: Topic): (r: Option<string>)
    ensures r.Some? ==> MarketDataTopic(r.value) == t
  {
    if |MarketDataPrefix| <= |t| && t[..|MarketDataPrefix|] == MarketDataPrefix
    then
      assert MarketDataPrefix + t[|MarketDataPrefix|..] == t;
      Some(t[|MarketDataPrefix|..])
    else None
  }

  /** PairOf inverts MarketDataTopic, so distinct pairs give distinct topics. */
  lemma TopicRoundTrip(pair: string)
    ensures PairOf(MarketDataTopic(pair)) == Some(pair)
  {
    var t := MarketDataTopic(pair);
    assert t[..|MarketDataPrefix|] == MarketDataPrefix;
    assert t[|MarketDataPrefix|..] == pair;
  }

  lemma TopicInjective(p: string, q: string)
    ensures MarketDataTopic(p) == MarketDataTopic(q) <==> p == q
  {
    TopicRoundTrip(p);
    TopicRoundTrip(q);
  }

  /** True when `t` is the market-data topic of one of `pairs`. */
  predicate NamesPairIn(t: Topic, pairs: seq<string>)
  {
    PairOf(t).Some? && PairOf(t).value in pairs
  }

  /** The topics named by a `pairs` array: exactly the market-data topics of its elements. */
  function TopicsOf(pairs: seq<string>): (ts: set<Topic>)
    ensures forall t :: t in ts <==> NamesPairIn(t, pairs)
  {
    var ts := set p | p in pairs :: MarketDataTopic(p);
    forall t ensures t in ts <==> NamesPairIn(t, pairs) {
      if t in ts {
        var p :| p in pairs && t == MarketDataTopic(p);
        TopicRoundTrip(p);
      }
      if NamesPairIn(t, pairs) {
        assert MarketDataTopic(PairOf(t).value) == t;
      }
    }
    ts
  }

  lemma TopicsOfSnoc(pairs: seq<string>, pair: string)
    ensures TopicsOf(pairs + [pair]) == TopicsOf(pairs) + {MarketDataTopic(pair)}
  {
    TopicRoundTrip(pair);
    forall t ensures t in TopicsOf(pairs + [pair]) <==> t in TopicsOf(pairs) + {MarketDataTopic(pair)} {
      if PairOf(t) == Some(pair) {
        assert MarketDataTopic(pair) == t;
      }
    }
  }

  /** Subscription set after a successful subscribe to `pairs`. */
  function Subscribed(subs: set<Topic>, pairs: seq<string>): (r: set<Topic>)
    ensures forall t :: t in r <==> t in subs || NamesPairIn(t, pairs)
  {
    subs + TopicsOf(pairs)
  }

  /** Subscription set after a successful unsubscribe from `pairs`. */
  function Unsubscribed(subs: set<Topic>, pairs: seq<string>): (r: set<Topic>)
    ensures forall t :: t in r <==> t in subs && !NamesPairIn(t, pairs)
  {
    subs - TopicsOf(pairs)
  }

  /** Subscribing twice to the same pairs is the same as subscribing once. */
  lemma SubscribeIdempotent(subs: set<Topic>, pairs: seq<string>)
    ensures Subscribed(Subscribed(subs, pairs), pairs) == Subscribed(subs, pairs)
  {
  }

  /** Unsubscribing from topics that are not held leaves the set as it was. */
  lemma UnsubscribeAbsentIsNoOp(subs: set<Topic>, pairs: seq<string>)
    requires forall p :: p in pairs ==> MarketDataTopic(p) !in subs
    ensures Unsubscribed(subs, pairs) == subs
  {
  }

  /** Unsubscribe undoes a subscribe to pairs that were not held before. */
  lemma UnsubscribeUndoesSubscribe(subs: set<Topic>, pairs: seq<string>)
    requires forall p :: p in pairs ==> MarketDataTopic(p) !in subs
    ensures Unsubscribed(Subscribed(subs, pairs), pairs) == subs
  {
    UnsubscribeAbsentIsNoOp(subs, pairs);
  }

  /** One subscribe or unsubscribe request that the router accepted. */
  datatype SubscriptionOp = Add(pairs: seq<string>) | Remove(pairs: seq<string>)

  function Apply(subs: set<Topic>, op: SubscriptionOp): set<Topic>
  {
    match op
    case Add(pairs) => Subscribed(subs, pairs)
    case Remove(pairs) => Unsubscribed(subs, pairs)
  }

  /** The subscription set after applying `ops` in call order. */
  function Replay(subs: set<Topic>, ops: seq<SubscriptionOp>): set<Topic>
    decreases |ops|
  {
    if ops == [] then subs else Replay(Apply(subs, ops[0]), ops[1..])
  }

  /**
   * The last request in `ops` that names topic `t`: Some(true) when it was a
   * subscribe, Some(false) when it was an unsubscribe, None when no request names `t`.
   */
  function LastMention(ops: seq<SubscriptionOp>, t: Topic): Option<bool>
    decreases |ops|
  {
    if ops == [] then None
    else if NamesPairIn(t, ops[|ops| - 1].pairs) then Some(ops[|ops| - 1].Add?)
    else LastMention(ops[..|ops| - 1], t)
  }

  lemma {:induction false} ReplaySnoc(subs: set<Topic>, ops: seq<SubscriptionOp>, op: SubscriptionOp)
    ensures Replay(subs, ops + [op]) == Apply(Replay(subs, ops), op)
    decreases |ops|
  {
    if ops == [] {
      assert [] + [op] == [op];
      assert Replay(Apply(subs, op), []) == Apply(subs, op);
    } else {
      assert (ops + [op])[1..] == ops[1..] + [op];
      ReplaySnoc(Apply(subs, ops[0]), ops[1..], op);
    }
  }

  /**
   * The final subscription set is the set-theoretic result of the requests in call
   * order: a topic is held iff the last request naming it was a subscribe, or no
   * request named it and it was held at the start.
   */
  lemma {:induction false} ReplayLastWriteWins(subs: set<Topic>, ops: seq<SubscriptionOp>, t: Topic)
    ensures t in Replay(subs, ops) <==>
      match LastMention(ops, t)
      case None => t in subs
      case Some(added) => added
    decreases |ops|
  {
    if ops != [] {
      var init, last := ops[..|ops| - 1], ops[|ops| - 1];
      assert init + [last] == ops;
      ReplaySnoc(subs, init, last);
      ReplayLastWriteWins(subs, init, t);
    }
  }
}

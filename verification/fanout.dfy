/**
 * What a broadcast sends and whom it drops, as functions of the registry it
 * starts from. The registry is a map from id to entry plus the order in which
 * ids were inserted, which is the order a JavaScript Map iterates in.
 * (backend/src/services/websocketServer.js:134-186)
 */
module Fanout {
  import opened Topics
  import opened Protocol

  /** The client `id` is registered and holds `topic`. */
  predicate Holds(clients: map<ClientId, Connection>, id: ClientId, topic: Topic)
  {
    id in clients && topic in clients[id].subscriptions
  }

  /** The ids of `ids`, in order, that a broadcast of `topic` tries to send to. */
  function Targets(ids: seq<ClientId>, clients: map<ClientId, Connection>, topic: Topic, open: set<ClientId>)
    : seq<ClientId>
    decreases |ids|
  {
    if ids == [] then []
    else
      var last := ids[|ids| - 1];
      Targets(ids[..|ids| - 1], clients, topic, open)
        + (if Holds(clients, last, topic) && last in open then [last] else [])
  }

  /** The ids of `ids`, in order, whose socket is open. */
  function OpenIds(ids: seq<ClientId>, open: set<ClientId>): seq<ClientId>
    decreases |ids|
  {
    if ids == [] then []
    else OpenIds(ids[..|ids| - 1], open) + (if ids[|ids| - 1] in open then [ids[|ids| - 1]] else [])
  }

  /** The messages written when `msg` is sent to each of `ids`; a send to a failing socket writes nothing. */
  function Deliveries(ids: seq<ClientId>, failing: set<ClientId>, msg: ServerMessage): seq<Delivery>
    decreases |ids|
  {
    if ids == [] then []
    else
      Deliveries(ids[..|ids| - 1], failing, msg)
        + (if ids[|ids| - 1] in failing then [] else [Delivery(ids[|ids| - 1], msg)])
  }

  /** `ids` with every member of `gone` taken out. */
  function Without(ids: seq<ClientId>, gone: set<ClientId>): seq<ClientId>
    decreases |ids|
  {
    if ids == [] then []
    else Without(ids[..|ids| - 1], gone) + (if ids[|ids| - 1] in gone then [] else [ids[|ids| - 1]])
  }

  /** The clients a broadcast of `topic` deletes: those it tried to send to whose send threw. */
  function Dropped(ids: seq<ClientId>, clients: map<ClientId, Connection>, topic: Topic,
                   open: set<ClientId>, failing: set<ClientId>): set<ClientId>
    decreases |ids|
  {
    if ids == [] then {}
    else
      var last := ids[|ids| - 1];
      Dropped(ids[..|ids| - 1], clients, topic, open, failing)
        + (if Holds(clients, last, topic) && last in open && last in failing then {last} else {})
  }

  // ---- one step at the end of the sequence ----

  lemma TargetsSnoc(ids: seq<ClientId>, x: ClientId, clients: map<ClientId, Connection>, topic: Topic, open: set<ClientId>)
    ensures Targets(ids + [x], clients, topic, open)
         == Targets(ids, clients, topic, open) + (if Holds(clients, x, topic) && x in open then [x] else [])
  {
    assert (ids + [x])[..|ids|] == ids;
  }

  lemma OpenIdsSnoc(ids: seq<ClientId>, x: ClientId, open: set<ClientId>)
    ensures OpenIds(ids + [x], open) == OpenIds(ids, open) + (if x in open then [x] else [])
  {
    assert (ids + [x])[..|ids|] == ids;
  }

  lemma DeliveriesSnoc(ids: seq<ClientId>, x: ClientId, failing: set<ClientId>, msg: ServerMessage)
    ensures Deliveries(ids + [x], failing, msg)
         == Deliveries(ids, failing, msg) + (if x in failing then [] else [Delivery(x, msg)])
  {
    assert (ids + [x])[..|ids|] == ids;
  }

  lemma WithoutSnoc(ids: seq<ClientId>, x: ClientId, gone: set<ClientId>)
    ensures Without(ids + [x], gone) == Without(ids, gone) + (if x in gone then [] else [x])
  {
    assert (ids + [x])[..|ids|] == ids;
  }

  lemma DroppedSnoc(ids: seq<ClientId>, x: ClientId, clients: map<ClientId, Connection>, topic: Topic,
                    open: set<ClientId>, failing: set<ClientId>)
    ensures Dropped(ids + [x], clients, topic, open, failing)
         == Dropped(ids, clients, topic, open, failing)
            + (if Holds(clients, x, topic) && x in open && x in failing then {x} else {})
  {
    assert (ids + [x])[..|ids|] == ids;
  }

  // ---- membership ----

  /** A broadcast tries exactly the listed clients that hold the topic and whose socket is open. */
  lemma {:induction false} TargetsMembership(ids: seq<ClientId>, clients: map<ClientId, Connection>, topic: Topic,
                                             open: set<ClientId>, id: ClientId)
    ensures id in Targets(ids, clients, topic, open) <==> id in ids && Holds(clients, id, topic) && id in open
    decreases |ids|
  {
    if ids != [] {
      var init := ids[..|ids| - 1];
      assert ids == init + [ids[|ids| - 1]];
      TargetsMembership(init, clients, topic, open, id);
    }
  }

  /** A trade update reaches exactly the listed clients whose socket is open. */
  lemma {:induction false} OpenIdsMembership(ids: seq<ClientId>, open: set<ClientId>, id: ClientId)
    ensures id in OpenIds(ids, open) <==> id in ids && id in open
    decreases |ids|
  {
    if ids != [] {
      var init := ids[..|ids| - 1];
      assert ids == init + [ids[|ids| - 1]];
      OpenIdsMembership(init, open, id);
    }
  }

  lemma {:induction false} DeliveriesMembership(ids: seq<ClientId>, failing: set<ClientId>, msg: ServerMessage,
                                                d: Delivery)
    ensures d in Deliveries(ids, failing, msg) <==> d.msg == msg && d.to in ids && d.to !in failing
    decreases |ids|
  {
    if ids != [] {
      var init := ids[..|ids| - 1];
      assert ids == init + [ids[|ids| - 1]];
      DeliveriesMembership(init, failing, msg, d);
    }
  }

  lemma {:induction false} WithoutMembership(ids: seq<ClientId>, gone: set<ClientId>, id: ClientId)
    ensures id in Without(ids, gone) <==> id in ids && id !in gone
    decreases |ids|
  {
    if ids != [] {
      var init := ids[..|ids| - 1];
      assert ids == init + [ids[|ids| - 1]];
      WithoutMembership(init, gone, id);
    }
  }

  /** A broadcast deletes exactly the listed clients that hold the topic, are open and whose send throws. */
  lemma {:induction false} DroppedMembership(ids: seq<ClientId>, clients: map<ClientId, Connection>, topic: Topic,
                                             open: set<ClientId>, failing: set<ClientId>, id: ClientId)
    ensures id in Dropped(ids, clients, topic, open, failing)
        <==> id in ids && Holds(clients, id, topic) && id in open && id in failing
    decreases |ids|
  {
    if ids != [] {
      var init := ids[..|ids| - 1];
      assert ids == init + [ids[|ids| - 1]];
      DroppedMembership(init, clients, topic, open, failing, id);
    }
  }

  lemma {:induction false} DroppedFailing(ids: seq<ClientId>, clients: map<ClientId, Connection>, topic: Topic,
                                          open: set<ClientId>, failing: set<ClientId>)
    ensures Dropped(ids, clients, topic, open, failing) <= failing
    decreases |ids|
  {
    if ids != [] {
      DroppedFailing(ids[..|ids| - 1], clients, topic, open, failing);
    }
  }

  // ---- no duplicates ----

  lemma {:induction false} TargetsNoDup(ids: seq<ClientId>, clients: map<ClientId, Connection>, topic: Topic,
                                        open: set<ClientId>)
    requires NoDup(ids)
    ensures NoDup(Targets(ids, clients, topic, open))
    decreases |ids|
  {
    if ids != [] {
      var init, last := ids[..|ids| - 1], ids[|ids| - 1];
      assert ids == init + [last];
      TargetsNoDup(init, clients, topic, open);
      TargetsMembership(init, clients, topic, open, last);
    }
  }

  lemma {:induction false} OpenIdsNoDup(ids: seq<ClientId>, open: set<ClientId>)
    requires NoDup(ids)
    ensures NoDup(OpenIds(ids, open))
    decreases |ids|
  {
    if ids != [] {
      var init, last := ids[..|ids| - 1], ids[|ids| - 1];
      assert ids == init + [last];
      OpenIdsNoDup(init, open);
      OpenIdsMembership(init, open, last);
    }
  }

  /** Over distinct ids, no client is written the same message twice. */
  lemma {:induction false} DeliveriesNoDup(ids: seq<ClientId>, failing: set<ClientId>, msg: ServerMessage)
    requires NoDup(ids)
    ensures NoDup(Deliveries(ids, failing, msg))
    decreases |ids|
  {
    if ids != [] {
      var init, last := ids[..|ids| - 1], ids[|ids| - 1];
      assert ids == init + [last];
      DeliveriesNoDup(init, failing, msg);
      DeliveriesMembership(init, failing, msg, Delivery(last, msg));
    }
  }

  lemma {:induction false} WithoutNoDup(ids: seq<ClientId>, gone: set<ClientId>)
    requires NoDup(ids)
    ensures NoDup(Without(ids, gone))
    decreases |ids|
  {
    if ids != [] {
      var init, last := ids[..|ids| - 1], ids[|ids| - 1];
      assert ids == init + [last];
      WithoutNoDup(init, gone);
      WithoutMembership(init, gone, last);
    }
  }

  // ---- removal ----

  lemma {:induction false} WithoutNothing(ids: seq<ClientId>, gone: set<ClientId>)
    requires forall id :: id in gone ==> id !in ids
    ensures Without(ids, gone) == ids
    decreases |ids|
  {
    if ids != [] {
      var init := ids[..|ids| - 1];
      assert ids == init + [ids[|ids| - 1]];
      WithoutNothing(init, gone);
    }
  }

  /** Removing `a` and then `b` is removing both at once. */
  lemma {:induction false} WithoutWithout(ids: seq<ClientId>, a: set<ClientId>, b: set<ClientId>)
    ensures Without(Without(ids, a), b) == Without(ids, a + b)
    decreases |ids|
  {
    if ids != [] {
      var init, last := ids[..|ids| - 1], ids[|ids| - 1];
      assert ids == init + [last];
      WithoutWithout(init, a, b);
      WithoutSnoc(init, last, a);
      WithoutSnoc(init, last, a + b);
      if last !in a {
        WithoutSnoc(Without(init, a), last, b);
        assert Without(ids, a) == Without(init, a) + [last];
        assert Without(Without(ids, a), b) == Without(Without(init, a), b) + (if last in b then [] else [last]);
      } else {
        assert Without(ids, a) == Without(init, a);
        assert Without(ids, a + b) == Without(init, a + b);
      }
    }
  }

  /** A broadcast after clients `gone` were deleted tries the same clients as before, minus `gone`. */
  lemma {:induction false} TargetsAfterRemoval(ids: seq<ClientId>, clients: map<ClientId, Connection>, topic: Topic,
                                               open: set<ClientId>, gone: set<ClientId>)
    ensures Targets(Without(ids, gone), clients - gone, topic, open)
         == Without(Targets(ids, clients, topic, open), gone)
    decreases |ids|
  {
    if ids != [] {
      var init, last := ids[..|ids| - 1], ids[|ids| - 1];
      assert ids == init + [last];
      TargetsAfterRemoval(init, clients, topic, open, gone);
      WithoutSnoc(init, last, gone);
      TargetsSnoc(init, last, clients, topic, open);
      var ts := Targets(init, clients, topic, open);
      var hit := Holds(clients, last, topic) && last in open;
      var tail: seq<ClientId> := if hit then [last] else [];
      assert Targets(ids, clients, topic, open) == ts + tail;
      if hit {
        WithoutSnoc(ts, last, gone);
      } else {
        assert ts + tail == ts;
      }
      if last !in gone {
        TargetsSnoc(Without(init, gone), last, clients - gone, topic, open);
        assert Without(ids, gone) == Without(init, gone) + [last];
        assert Holds(clients - gone, last, topic) == Holds(clients, last, topic);
      } else {
        assert Without(ids, gone) == Without(init, gone);
      }
    }
  }

  /** Taking failing clients out of a target list does not change what is written. */
  lemma {:induction false} DeliveriesSkipFailing(ids: seq<ClientId>, gone: set<ClientId>, failing: set<ClientId>,
                                                 msg: ServerMessage)
    requires gone <= failing
    ensures Deliveries(Without(ids, gone), failing, msg) == Deliveries(ids, failing, msg)
    decreases |ids|
  {
    if ids != [] {
      var init, last := ids[..|ids| - 1], ids[|ids| - 1];
      assert ids == init + [last];
      DeliveriesSkipFailing(init, gone, failing, msg);
      WithoutSnoc(init, last, gone);
      DeliveriesSnoc(init, last, failing, msg);
      if last !in gone {
        DeliveriesSnoc(Without(init, gone), last, failing, msg);
        assert Without(ids, gone) == Without(init, gone) + [last];
      } else {
        assert Without(ids, gone) == Without(init, gone);
        assert Deliveries(ids, failing, msg) == Deliveries(init, failing, msg);
      }
    }
  }

  lemma DroppedAfterRemoval(ids: seq<ClientId>, clients: map<ClientId, Connection>, topic: Topic,
                            open: set<ClientId>, failing: set<ClientId>, gone: set<ClientId>)
    ensures Dropped(Without(ids, gone), clients - gone, topic, open, failing)
         == Dropped(ids, clients, topic, open, failing) - gone
  {
    forall id ensures id in Dropped(Without(ids, gone), clients - gone, topic, open, failing)
                  <==> id in Dropped(ids, clients, topic, open, failing) - gone {
      DroppedMembership(Without(ids, gone), clients - gone, topic, open, failing, id);
      DroppedMembership(ids, clients, topic, open, failing, id);
      WithoutMembership(ids, gone, id);
    }
  }

  /** What visiting the entry at position `i` adds to a broadcast that visited the ones before it. */
  lemma BroadcastStep(ids: seq<ClientId>, i: nat, clients: map<ClientId, Connection>, topic: Topic,
                      open: set<ClientId>, failing: set<ClientId>, msg: ServerMessage)
    requires i < |ids| && NoDup(ids)
    ensures var x, done := ids[i], ids[..i];
      var gone := Dropped(done, clients, topic, open, failing);
      var sent := Deliveries(Targets(done, clients, topic, open), failing, msg);
      var hit := Holds(clients, x, topic) && x in open;
      && x !in gone
      && (hit && x !in failing ==>
            Deliveries(Targets(ids[..i + 1], clients, topic, open), failing, msg) == sent + [Delivery(x, msg)])
      && (!(hit && x !in failing) ==>
            Deliveries(Targets(ids[..i + 1], clients, topic, open), failing, msg) == sent)
      && (hit && x in failing ==>
            && Dropped(ids[..i + 1], clients, topic, open, failing) == gone + {x}
            && Without(Without(ids, gone), {x}) == Without(ids, gone + {x})
            && (clients - gone) - {x} == clients - (gone + {x}))
      && (!(hit && x in failing) ==> Dropped(ids[..i + 1], clients, topic, open, failing) == gone)
  {
    var x, done := ids[i], ids[..i];
    assert ids[..i + 1] == done + [x];
    DroppedMembership(done, clients, topic, open, failing, x);
    TargetsSnoc(done, x, clients, topic, open);
    DroppedSnoc(done, x, clients, topic, open, failing);
    var ts := Targets(done, clients, topic, open);
    var gone := Dropped(done, clients, topic, open, failing);
    if Holds(clients, x, topic) && x in open {
      DeliveriesSnoc(ts, x, failing, msg);
      if x in failing {
        WithoutWithout(ids, gone, {x});
        assert (clients - gone) - {x} == clients - (gone + {x});
      } else {
        assert gone + {} == gone;
      }
    } else {
      assert Targets(ids[..i + 1], clients, topic, open) == ts;
      assert gone + {} == gone;
    }
  }

  /** Before a broadcast visits any entry, it has written and deleted nothing. */
  lemma BroadcastStart(ids: seq<ClientId>, clients: map<ClientId, Connection>, topic: Topic,
                       open: set<ClientId>, failing: set<ClientId>)
    ensures Targets(ids[..0], clients, topic, open) == []
    ensures Dropped(ids[..0], clients, topic, open, failing) == {}
    ensures clients - {} == clients && Without(ids, {}) == ids
  {
    WithoutNothing(ids, {});
  }

  /** Deleting `gone` from a registry whose order lists each id once keeps the order listing each id once. */
  lemma BroadcastEnd(ids: seq<ClientId>, clients: map<ClientId, Connection>, gone: set<ClientId>)
    requires NoDup(ids) && forall x :: x in ids <==> x in clients
    ensures NoDup(Without(ids, gone)) && forall x :: x in Without(ids, gone) <==> x in clients - gone
  {
    WithoutNoDup(ids, gone);
    forall x ensures x in Without(ids, gone) <==> x in clients - gone {
      WithoutMembership(ids, gone, x);
    }
  }

  // ---- what a broadcast promises ----

  /**
   * A broadcast of `msg` on `topic` writes to client `id` iff `id` is registered,
   * holds the topic, its socket is open and its send does not throw; it writes
   * nothing else. Whether `id` receives depends on no other client's failure.
   */
  lemma BroadcastDeliveredIff(ids: seq<ClientId>, clients: map<ClientId, Connection>, topic: Topic,
                              open: set<ClientId>, failing: set<ClientId>, msg: ServerMessage, d: Delivery)
    ensures d in Deliveries(Targets(ids, clients, topic, open), failing, msg)
        <==> d.msg == msg && d.to in ids && Holds(clients, d.to, topic) && d.to in open && d.to !in failing
  {
    DeliveriesMembership(Targets(ids, clients, topic, open), failing, msg, d);
    TargetsMembership(ids, clients, topic, open, d.to);
  }

  /** A trade update writes to every listed open client whose send does not throw, whatever it subscribed to. */
  lemma TradeUpdateDeliveredIff(ids: seq<ClientId>, open: set<ClientId>, failing: set<ClientId>,
                                msg: ServerMessage, d: Delivery)
    ensures d in Deliveries(OpenIds(ids, open), failing, msg)
        <==> d.msg == msg && d.to in ids && d.to in open && d.to !in failing
  {
    DeliveriesMembership(OpenIds(ids, open), failing, msg, d);
    OpenIdsMembership(ids, open, d.to);
  }

  /** With no client whose socket is open, a trade update writes nothing. */
  lemma {:induction false} TradeUpdateNoneOpen(ids: seq<ClientId>, open: set<ClientId>, failing: set<ClientId>,
                                               msg: ServerMessage)
    requires forall id :: id in ids ==> id !in open
    ensures Deliveries(OpenIds(ids, open), failing, msg) == []
  {
    var os := OpenIds(ids, open);
    if os != [] {
      OpenIdsMembership(ids, open, os[0]);
    }
  }

  // ---- one market-data tick ----

  /** Everything one tick writes: one broadcast per pair, in the order of `pairs`. */
  function TickOutput(pairs: seq<string>, ids: seq<ClientId>, clients: map<ClientId, Connection>,
                      open: set<ClientId>, failing: set<ClientId>): seq<Delivery>
    decreases |pairs|
  {
    if pairs == [] then []
    else
      var pair := pairs[|pairs| - 1];
      TickOutput(pairs[..|pairs| - 1], ids, clients, open, failing)
        + Deliveries(Targets(ids, clients, MarketDataTopic(pair), open), failing, MarketData(pair))
  }

  /** Every client one tick deletes. */
  function TickDropped(pairs: seq<string>, ids: seq<ClientId>, clients: map<ClientId, Connection>,
                       open: set<ClientId>, failing: set<ClientId>): set<ClientId>
    decreases |pairs|
  {
    if pairs == [] then {}
    else
      TickDropped(pairs[..|pairs| - 1], ids, clients, open, failing)
        + Dropped(ids, clients, MarketDataTopic(pairs[|pairs| - 1]), open, failing)
  }

  lemma TickSnoc(pairs: seq<string>, pair: string, ids: seq<ClientId>, clients: map<ClientId, Connection>,
                 open: set<ClientId>, failing: set<ClientId>)
    ensures TickOutput(pairs + [pair], ids, clients, open, failing)
         == TickOutput(pairs, ids, clients, open, failing)
            + Deliveries(Targets(ids, clients, MarketDataTopic(pair), open), failing, MarketData(pair))
    ensures TickDropped(pairs + [pair], ids, clients, open, failing)
         == TickDropped(pairs, ids, clients, open, failing)
            + Dropped(ids, clients, MarketDataTopic(pair), open, failing)
  {
    assert (pairs + [pair])[..|pairs|] == pairs;
  }

  /**
   * A tick writes the quote of `pair` to client `id` iff `id` is listed, holds
   * the topic of `pair`, its socket is open and its sends do not throw.
   */
  lemma {:induction false} TickDeliveredIff(pairs: seq<string>, ids: seq<ClientId>, clients: map<ClientId, Connection>,
                                            open: set<ClientId>, failing: set<ClientId>, d: Delivery)
    ensures d in TickOutput(pairs, ids, clients, open, failing)
        <==> d.msg.MarketData? && d.msg.pair in pairs && d.to in ids
             && Holds(clients, d.to, MarketDataTopic(d.msg.pair)) && d.to in open && d.to !in failing
    decreases |pairs|
  {
    if pairs != [] {
      var init, pair := pairs[..|pairs| - 1], pairs[|pairs| - 1];
      assert pairs == init + [pair];
      TickDeliveredIff(init, ids, clients, open, failing, d);
      BroadcastDeliveredIff(ids, clients, MarketDataTopic(pair), open, failing, MarketData(pair), d);
    }
  }

  /** `subs` holds the topic of at least one of `pairs`. */
  predicate HoldsAnyPair(subs: set<Topic>, pairs: seq<string>)
  {
    exists p :: p in pairs && MarketDataTopic(p) in subs
  }

  lemma HoldsAnyPairSnoc(subs: set<Topic>, pairs: seq<string>, pair: string)
    ensures HoldsAnyPair(subs, pairs + [pair]) <==> HoldsAnyPair(subs, pairs) || MarketDataTopic(pair) in subs
  {
    if HoldsAnyPair(subs, pairs + [pair]) {
      var p :| p in pairs + [pair] && MarketDataTopic(p) in subs;
      if p != pair {
        assert p in pairs;
      }
    }
    if HoldsAnyPair(subs, pairs) {
      var p :| p in pairs && MarketDataTopic(p) in subs;
      assert p in pairs + [pair];
    }
    if MarketDataTopic(pair) in subs {
      assert pair in pairs + [pair];
    }
  }

  /** A tick deletes exactly the listed clients that hold some pair's topic, are open and whose send throws. */
  lemma {:induction false} TickDroppedIff(pairs: seq<string>, ids: seq<ClientId>, clients: map<ClientId, Connection>,
                                          open: set<ClientId>, failing: set<ClientId>, id: ClientId)
    ensures id in TickDropped(pairs, ids, clients, open, failing)
        <==> id in ids && id in clients && HoldsAnyPair(clients[id].subscriptions, pairs)
             && id in open && id in failing
    decreases |pairs|
  {
    if pairs != [] {
      var init, pair := pairs[..|pairs| - 1], pairs[|pairs| - 1];
      assert pairs == init + [pair];
      TickDroppedIff(init, ids, clients, open, failing, id);
      DroppedMembership(ids, clients, MarketDataTopic(pair), open, failing, id);
      TickSnoc(init, pair, ids, clients, open, failing);
      if id in clients {
        HoldsAnyPairSnoc(clients[id].subscriptions, init, pair);
      }
    }
  }

  lemma {:induction false} TickDroppedFailing(pairs: seq<string>, ids: seq<ClientId>, clients: map<ClientId, Connection>,
                                              open: set<ClientId>, failing: set<ClientId>)
    ensures TickDropped(pairs, ids, clients, open, failing) <= failing
    decreases |pairs|
  {
    if pairs != [] {
      TickDroppedFailing(pairs[..|pairs| - 1], ids, clients, open, failing);
      DroppedFailing(ids, clients, MarketDataTopic(pairs[|pairs| - 1]), open, failing);
    }
  }

  /**
   * The broadcast of one more pair, run on the registry that the earlier pairs of
   * the tick left behind, writes what it would have written on the registry the
   * tick started from, and deletes what remains of its own drop set.
   */
  lemma TickStep(pairs: seq<string>, pair: string, ids: seq<ClientId>, clients: map<ClientId, Connection>,
                 open: set<ClientId>, failing: set<ClientId>)
    ensures var gone := TickDropped(pairs, ids, clients, open, failing);
      var topic := MarketDataTopic(pair);
      var ids', clients' := Without(ids, gone), clients - gone;
      && TickOutput(pairs, ids, clients, open, failing)
           + Deliveries(Targets(ids', clients', topic, open), failing, MarketData(pair))
         == TickOutput(pairs + [pair], ids, clients, open, failing)
      && clients' - Dropped(ids', clients', topic, open, failing)
         == clients - TickDropped(pairs + [pair], ids, clients, open, failing)
      && Without(ids', Dropped(ids', clients', topic, open, failing))
         == Without(ids, TickDropped(pairs + [pair], ids, clients, open, failing))
  {
    var gone := TickDropped(pairs, ids, clients, open, failing);
    var topic := MarketDataTopic(pair);
    TickDroppedFailing(pairs, ids, clients, open, failing);
    TickSnoc(pairs, pair, ids, clients, open, failing);
    TargetsAfterRemoval(ids, clients, topic, open, gone);
    DeliveriesSkipFailing(Targets(ids, clients, topic, open), gone, failing, MarketData(pair));
    var d := Dropped(ids, clients, topic, open, failing);
    DroppedAfterRemoval(ids, clients, topic, open, failing, gone);
    WithoutWithout(ids, gone, d - gone);
    assert gone + (d - gone) == gone + d;
    assert (clients - gone) - (d - gone) == clients - (gone + d);
  }
}

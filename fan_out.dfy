/** Manual topic fan-out, as the node, deno and bunny peers do it: walk the
    peer set, skip the publisher, and send to every peer whose `_topics`
    holds the topic. */
module FanOut {
  import opened Base
  import opened PeerSets

  /** A peer's `_topics`; a peer that never subscribed has none. */
  function TopicsOf(topics: map<PeerId, set<Topic>>, p: PeerId): set<Topic>
  {
    if p in topics then topics[p] else {}
  }

  /** The guard of the fan-out loop: `peer !== this && peer._topics.has(topic)`. */
  predicate Receives(topics: map<PeerId, set<Topic>>, from: PeerId, topic: Topic, peer: PeerId)
  {
    peer != from && topic in TopicsOf(topics, peer)
  }

  /** The sends of one publish, in the iteration order of the set. */
  function Deliveries(members: seq<PeerId>, topics: map<PeerId, set<Topic>>, from: PeerId, topic: Topic, data: Bytes): seq<Effect>
  {
    if members == [] then []
    else
      var last := members[|members| - 1];
      Deliveries(members[..|members| - 1], topics, from, topic, data)
        + (if Receives(topics, from, topic, last) then [Sent(last, data)] else [])
  }

  /** Every send of a publish carries the published data to a member that is
      not the publisher and is subscribed to the topic. */
  lemma {:induction false} DeliveriesOnlyToSubscribers(members: seq<PeerId>, topics: map<PeerId, set<Topic>>, from: PeerId, topic: Topic, data: Bytes, e: Effect)
    requires e in Deliveries(members, topics, from, topic, data)
    ensures e.Sent? && e.data == data && e.to in members && e.to != from && topic in TopicsOf(topics, e.to)
  {
    if members != [] {
      var init := members[..|members| - 1];
      var last := members[|members| - 1];
      if e in Deliveries(init, topics, from, topic, data) {
        DeliveriesOnlyToSubscribers(init, topics, from, topic, data, e);
        assert e.to in init;
      }
    }
  }

  /** Over a duplicate-free set, a publish sends exactly once to each member
      that is subscribed and is not the publisher, and never to anyone else. */
  lemma {:induction false} DeliveriesExactlyOnce(members: seq<PeerId>, topics: map<PeerId, set<Topic>>, from: PeerId, topic: Topic, data: Bytes, q: PeerId)
    requires Distinct(members)
    ensures multiset(Deliveries(members, topics, from, topic, data))[Sent(q, data)]
            == if q in members && Receives(topics, from, topic, q) then 1 else 0
  {
    if members != [] {
      var init := members[..|members| - 1];
      var last := members[|members| - 1];
      assert members == init + [last];
      assert Distinct(init);
      assert last !in init;
      DeliveriesExactlyOnce(init, topics, from, topic, data, q);
    }
  }

  /** The publisher never receives its own publish, even when subscribed to the topic. */
  lemma NoSelfDelivery(members: seq<PeerId>, topics: map<PeerId, set<Topic>>, from: PeerId, topic: Topic, data: Bytes, d: Bytes)
    ensures Sent(from, d) !in Deliveries(members, topics, from, topic, data)
  {
    if Sent(from, d) in Deliveries(members, topics, from, topic, data) {
      DeliveriesOnlyToSubscribers(members, topics, from, topic, data, Sent(from, d));
    }
  }

  /** A peer that has left the set is not reached by any later publish. */
  lemma RemovedPeerNotReached(members: seq<PeerId>, topics: map<PeerId, set<Topic>>, from: PeerId, topic: Topic, data: Bytes, gone: PeerId, d: Bytes)
    ensures Sent(gone, d) !in Deliveries(Remove(members, gone), topics, from, topic, data)
  {
    if Sent(gone, d) in Deliveries(Remove(members, gone), topics, from, topic, data) {
      DeliveriesOnlyToSubscribers(Remove(members, gone), topics, from, topic, data, Sent(gone, d));
    }
  }

  /** The fan-out loop of `NodePeer.publish`, `DenoPeer.publish` and
      `BunnyPeer.publish`: one `ws.send` per subscribed member other than the publisher. */
  method CollectDeliveries(members: seq<PeerId>, topics: map<PeerId, set<Topic>>, from: PeerId, topic: Topic, data: Bytes)
    returns (sends: seq<Effect>)
    ensures sends == Deliveries(members, topics, from, topic, data)
  {
    sends := [];
    var i := 0;
    while i < |members|
      invariant 0 <= i <= |members|
      invariant sends == Deliveries(members[..i], topics, from, topic, data)
    {
      var peer := members[i];
      assert members[..i + 1][..i] == members[..i];
      if peer != from && topic in TopicsOf(topics, peer) {
        sends := sends + [Sent(peer, data)];
      }
      i := i + 1;
    }
    assert members[..i] == members;
  }
}

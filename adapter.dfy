/** The adapter helpers shared by every runtime: the adapter-level `publish`
    that goes through the first peer of the set, and the identity wrapper
    that declares an adapter factory. */
module Adapter {
  import opened Base
  import opened PeerSets
  import opened FanOut

  /** `adapterUtils(peers).publish(topic, message)`: when the set is not empty,
      its first peer (in insertion order) is sent the message itself and then
      publishes it to the others. */
  function Publish(peers: seq<PeerId>, topics: map<PeerId, set<Topic>>, topic: Topic, data: Bytes): (effects: seq<Effect>)
    ensures peers == [] <==> effects == []
    ensures peers != [] ==> effects[0] == Sent(peers[0], data)
  {
    if peers == [] then []
    else [Sent(peers[0], data)] + Deliveries(peers, topics, peers[0], topic, data)
  }

  /** Who an adapter-level publish reaches, over a duplicate-free set: the first
      peer exactly once whatever it subscribed to, every other member exactly
      once when it subscribed to the topic, and nobody else. */
  lemma PublishReaches(peers: seq<PeerId>, topics: map<PeerId, set<Topic>>, topic: Topic, data: Bytes, q: PeerId)
    requires Distinct(peers)
    ensures multiset(Publish(peers, topics, topic, data))[Sent(q, data)]
            == if peers == [] then 0
               else if q == peers[0] then 1
               else if q in peers && topic in TopicsOf(topics, q) then 1
               else 0
  {
    if peers != [] {
      DeliveriesExactlyOnce(peers, topics, peers[0], topic, data, q);
    }
  }

  /** Every effect of an adapter-level publish is a send of the published data
      to a member of the set. */
  lemma PublishOnlyToMembers(peers: seq<PeerId>, topics: map<PeerId, set<Topic>>, topic: Topic, data: Bytes, e: Effect)
    requires e in Publish(peers, topics, topic, data)
    ensures e.Sent? && e.data == data && e.to in peers
  {
    if e != Publish(peers, topics, topic, data)[0] {
      DeliveriesOnlyToSubscribers(peers, topics, peers[0], topic, data, e);
    }
  }

  /** `defineWebSocketAdapter(factory)` hands the factory back unchanged. */
  function DefineWebSocketAdapter<Factory>(factory: Factory): (r: Factory)
    ensures r == factory
  {
    factory
  }
}

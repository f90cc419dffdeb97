/** The Bun adapter: `upgrade` decides whether to answer at once, otherwise
    `server.upgrade` is asked to take the connection over; the peer of a
    socket is created on first use and kept in `ws.data`; `open` and `close`
    maintain the per-namespace sets; topics and publishing go through Bun's
    native pub/sub. */
module BunAdapter {
  import opened Base
  import opened PeerSets
  import opened Hooks
  import opened Text

  /** The bytes of a string of ASCII characters (each below 128). */
  function Ascii(s: string): (b: Bytes)
    ensures |b| == |s|
    ensures forall i :: 0 <= i < |s| && s[i] as int < 0x80 ==> b[i] as int == s[i] as int
  {
    seq(|s|, i requires 0 <= i < |s| => Byte(s[i] as int))
  }

  /** `new Response("Upgrade failed", { status: 500 })` */
  function UpgradeFailed(): (r: Response)
    ensures r.status == 500 && !r.Ok()
    ensures r.body.Some? && r.body.value == [Ascii("Upgrade failed")]
  {
    Response(500, "", [("content-type", "text/plain;charset=UTF-8")], Some([Ascii("Upgrade failed")]))
  }

  /** What `handleUpgrade` resolves to: the end response, the 500 answer of a
      refused upgrade, or `undefined` once Bun has taken the connection over. */
  datatype BunReply =
    | EndResponse(response: Value)
    | Refused(failure: Response)
    | TakenOver

  /** The `data` Bun attaches to the socket: the namespace and context from
      `upgrade`, and the peer once created. */
  datatype SocketData = SocketData(namespace: string, context: Context, peer: Option<PeerId>)

  /** Every socket's peer, once created, lives in the socket's namespace. */
  predicate SocketsHomed(sockets: map<SocketId, SocketData>, home: map<PeerId, string>)
  {
    forall s :: s in sockets && sockets[s].peer.Some? ==>
      sockets[s].peer.value in home && home[sockets[s].peer.value] == sockets[s].namespace
  }

  class BunServer {
    const hooks: AdapterHookable
    var registry: Registry
    var sockets: map<SocketId, SocketData>
    var home: map<PeerId, string>
    var topics: map<PeerId, set<Topic>>
    var native: map<PeerId, set<Topic>>
    var log: seq<Effect>
    var nextPeer: PeerId

    /** Sets have no duplicates and hold only peers of their own namespace; a
        socket's peer lives in the socket's namespace; `_topics` agrees with
        the native subscriptions. */
    ghost predicate Valid()
      reads this
    {
      && RegistryDistinct(registry)
      && Homed(registry, home)
      && SocketsHomed(sockets, home)
      && (forall p :: p in home ==> p < nextPeer)
      && topics == native
    }

    constructor (hooks: AdapterHookable)
      ensures this.hooks == hooks && registry == map[] && sockets == map[] && home == map[]
      ensures topics == map[] && native == map[] && log == [] && nextPeer == 0
      ensures Valid()
    {
      this.hooks := hooks;
      registry := map[];
      sockets := map[];
      home := map[];
      topics := map[];
      native := map[];
      log := [];
      nextPeer := 0;
    }

    /** `handleUpgrade(request, server)`. `accepted` is what `server.upgrade`
        answers; on success Bun creates `socket` carrying the namespace and context. */
    method HandleUpgrade(request: UpgradeRequest, namespace: string, accepted: bool, socket: SocketId)
      returns (out: Completion<BunReply>)
      requires Valid() && socket !in sockets
      modifies request, this`sockets
      ensures Valid()
      ensures request.context != null
      ensures var u := Interpret(hooks.CallHook(UpgradeHook, RequestSubject(request.id), Undefined).result, request.context);
        u.Abrupt? ==> out == Abrupt(u.thrown) && sockets == old(sockets)
      ensures var u := Interpret(hooks.CallHook(UpgradeHook, RequestSubject(request.id), Undefined).result, request.context);
        u.Normal? && u.value.endResponse.Some? ==>
          out == Normal(EndResponse(u.value.endResponse.value)) && sockets == old(sockets)
      ensures var u := Interpret(hooks.CallHook(UpgradeHook, RequestSubject(request.id), Undefined).result, request.context);
        u.Normal? && u.value.endResponse.None? && !accepted ==>
          out == Normal(Refused(UpgradeFailed())) && sockets == old(sockets)
      ensures var u := Interpret(hooks.CallHook(UpgradeHook, RequestSubject(request.id), Undefined).result, request.context);
        u.Normal? && u.value.endResponse.None? && accepted ==>
          out == Normal(TakenOver) && sockets == old(sockets)[socket := SocketData(namespace, request.context, None)]
    {
      var u := hooks.Upgrade(request);
      if u.Abrupt? {
        return Abrupt(u.thrown);
      }
      if u.value.endResponse.Some? {
        return Normal(EndResponse(u.value.endResponse.value));
      }
      if !accepted {
        return Normal(Refused(UpgradeFailed()));
      }
      sockets := sockets[socket := SocketData(namespace, u.value.context, None)];
      out := Normal(TakenOver);
    }

    /** What `getPeer(ws)` leaves behind, given the state before it: the peer
        already cached in `ws.data` with nothing changed, or a fresh peer
        cached there and homed in the socket's namespace. */
    ghost predicate Attached(ws: SocketId, peer: PeerId, sockets0: map<SocketId, SocketData>, home0: map<PeerId, string>, next0: PeerId)
      requires ws in sockets0
      reads this
    {
      && ws in sockets && sockets[ws].peer == Some(peer)
      && peer in home && home[peer] == sockets0[ws].namespace
      && (sockets0[ws].peer.Some? ==>
        && peer == sockets0[ws].peer.value
        && sockets == sockets0 && home == home0 && nextPeer == next0)
      && (sockets0[ws].peer.None? ==>
        && peer == next0 && peer !in home0 && nextPeer == next0 + 1
        && sockets == sockets0[ws := sockets0[ws].(peer := Some(peer))]
        && home == home0[peer := sockets0[ws].namespace])
    }

    /** `getPeer(ws)`: the peer cached in `ws.data`, created and cached on first use. */
    method GetPeer(ws: SocketId) returns (peer: PeerId)
      requires Valid() && ws in sockets
      modifies this`sockets, this`home, this`nextPeer
      ensures Valid()
      ensures Attached(ws, peer, old(sockets), old(home), old(nextPeer))
      ensures registry == old(registry)
    {
      var data := sockets[ws];
      if data.peer.Some? {
        return data.peer.value;
      }
      peer := nextPeer;
      HomedExtend(registry, home, peer, data.namespace);
      nextPeer := nextPeer + 1;
      sockets := sockets[ws := data.(peer := Some(peer))];
      home := home[peer := data.namespace];
    }

    /** The `open` handler: the peer joins its namespace's set, then `open` is dispatched. */
    method Open(ws: SocketId) returns (peer: PeerId)
      requires Valid() && ws in sockets
      modifies this`sockets, this`home, this`nextPeer, this`registry, this`log
      ensures Valid()
      ensures Attached(ws, peer, old(sockets), old(home), old(nextPeer))
      ensures var ns := old(sockets[ws].namespace);
        && registry == RegistryAdd(old(registry), ns, peer)
        && peer in Members(registry, ns)
        && log == old(log) + [Dispatched(OpenHook, peer, Members(registry, ns))]
    {
      var ns := sockets[ws].namespace;
      peer := GetPeer(ws);
      JoinNamespace(ns, peer);
    }

    /** `getPeers(globalPeers, namespace).add(peer)`, then the `open` dispatch. */
    method JoinNamespace(ns: string, peer: PeerId)
      requires Valid() && peer in home && home[peer] == ns
      modifies this`registry, this`log
      ensures Valid()
      ensures registry == RegistryAdd(old(registry), ns, peer)
      ensures log == old(log) + [Dispatched(OpenHook, peer, Members(registry, ns))]
    {
      HomedJoin(registry, home, ns, peer);
      registry := RegistryAdd(registry, ns, peer);
      log := log + [Dispatched(OpenHook, peer, Members(registry, ns))];
    }

    /** The `message` handler. */
    method Message(ws: SocketId) returns (peer: PeerId)
      requires Valid() && ws in sockets
      modifies this`sockets, this`home, this`nextPeer, this`log
      ensures Valid()
      ensures Attached(ws, peer, old(sockets), old(home), old(nextPeer))
      ensures registry == old(registry)
      ensures log == old(log) + [Dispatched(MessageHook, peer, Members(registry, old(sockets[ws].namespace)))]
    {
      var ns := sockets[ws].namespace;
      peer := GetPeer(ws);
      log := log + [Dispatched(MessageHook, peer, Members(registry, ns))];
    }

    /** The `close` handler: the peer leaves its namespace's set before `close` is dispatched. */
    method Close(ws: SocketId) returns (peer: PeerId)
      requires Valid() && ws in sockets
      modifies this`sockets, this`home, this`nextPeer, this`registry, this`log
      ensures Valid()
      ensures Attached(ws, peer, old(sockets), old(home), old(nextPeer))
      ensures var ns := old(sockets[ws].namespace);
        && registry == RegistryRemove(old(registry), ns, peer)
        && peer !in Members(registry, ns)
        && log == old(log) + [Dispatched(CloseHook, peer, Members(registry, ns))]
    {
      var ns := sockets[ws].namespace;
      peer := GetPeer(ws);
      LeaveNamespace(ns, peer);
    }

    /** `getPeers(globalPeers, namespace).delete(peer)`, then the `close` dispatch. */
    method LeaveNamespace(ns: string, peer: PeerId)
      requires Valid()
      modifies this`registry, this`log
      ensures Valid()
      ensures registry == RegistryRemove(old(registry), ns, peer)
      ensures log == old(log) + [Dispatched(CloseHook, peer, Members(registry, ns))]
    {
      HomedRemove(registry, home, ns, peer);
      registry := RegistryRemove(registry, ns, peer);
      log := log + [Dispatched(CloseHook, peer, Members(registry, ns))];
    }

    /** `BunPeer.subscribe`: `_topics` and the native subscription both gain the topic. */
    method Subscribe(peer: PeerId, topic: Topic)
      requires Valid()
      modifies this`topics, this`native, this`log
      ensures Valid()
      ensures peer in topics && topics[peer] == old(if peer in topics then topics[peer] else {}) + {topic}
      ensures forall q :: q != peer ==> (q in topics <==> q in old(topics)) && (q in topics ==> topics[q] == old(topics[q]))
      ensures log == old(log) + [NativeSubscribed(peer, topic)]
    {
      var current := if peer in topics then topics[peer] else {};
      topics := topics[peer := current + {topic}];
      native := native[peer := current + {topic}];
      log := log + [NativeSubscribed(peer, topic)];
    }

    /** `BunPeer.unsubscribe`: `_topics` and the native subscription both lose the topic. */
    method Unsubscribe(peer: PeerId, topic: Topic)
      requires Valid()
      modifies this`topics, this`native, this`log
      ensures Valid()
      ensures peer in topics && topics[peer] == old(if peer in topics then topics[peer] else {}) - {topic}
      ensures forall q :: q != peer ==> (q in topics <==> q in old(topics)) && (q in topics ==> topics[q] == old(topics[q]))
      ensures log == old(log) + [NativeUnsubscribed(peer, topic)]
    {
      var current := if peer in topics then topics[peer] else {};
      topics := topics[peer := current - {topic}];
      native := native[peer := current - {topic}];
      log := log + [NativeUnsubscribed(peer, topic)];
    }

    /** `BunPeer.publish`: handed to `ws.publish`, whose answer is returned unchanged. */
    method Publish(peer: PeerId, topic: Topic, data: Bytes, nativeResult: int) returns (n: int)
      modifies this`log
      ensures n == nativeResult
      ensures log == old(log) + [NativePublished(peer, topic, data)]
    {
      log := log + [NativePublished(peer, topic, data)];
      n := nativeResult;
    }

    /** `BunPeer.send`: the native send's own answer is returned. */
    method Send(peer: PeerId, data: Bytes, nativeResult: int) returns (n: int)
      modifies this`log
      ensures n == nativeResult
      ensures log == old(log) + [Sent(peer, data)]
    {
      log := log + [Sent(peer, data)];
      n := nativeResult;
    }

    /** `BunPeer.close` */
    method ClosePeer(peer: PeerId, code: Option<int>, reason: Option<string>)
      modifies this`log
      ensures log == old(log) + [Closed(peer, code, reason)]
    {
      log := log + [Closed(peer, code, reason)];
    }

    /** `BunPeer.terminate` */
    method Terminate(peer: PeerId)
      modifies this`log
      ensures log == old(log) + [Terminated(peer)]
    {
      log := log + [Terminated(peer)];
    }
  }
}

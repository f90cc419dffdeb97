/** The Deno adapter: the `upgrade` hook may answer with a `Response`;
    otherwise `Deno.upgradeWebSocket` is called and the new peer joins the set
    at once, leaving it again on the socket's `close` or `error` event. */
module DenoAdapter {
  import opened Base
  import opened PeerSets
  import opened FanOut
  import opened Hooks
  import Adapter

  /** `Deno.NetAddr`, reduced to the part the peer reads. */
  datatype NetAddr = NetAddr(hostname: string, port: nat)

  /** `Deno.ServeHandlerInfo`: the remote address, when the runtime gives one. */
  datatype ServeHandlerInfo = ServeHandlerInfo(remoteAddr: Option<NetAddr>)

  /** `info.remoteAddr?.hostname` */
  function RemoteHostname(info: ServeHandlerInfo): (host: Option<string>)
    ensures host.None? <==> info.remoteAddr.None?
    ensures host.Some? ==> host.value == info.remoteAddr.value.hostname
  {
    match info.remoteAddr
    case None => None
    case Some(a) => Some(a.hostname)
  }

  /** What `handleUpgrade` resolves to: the hook's own `Response`, or the
      upgrade response of a new peer together with the headers it was asked to carry. */
  datatype DenoReply =
    | HookResponse(response: Response)
    | UpgradeResponse(peer: PeerId, headers: Value)

  class DenoServer {
    const hooks: AdapterHookable
    var peers: seq<PeerId>
    var infos: map<PeerId, ServeHandlerInfo>
    var log: seq<Effect>
    var nextPeer: PeerId

    /** The set has no duplicates, and every peer ever created has its `denoInfo`. */
    ghost predicate Valid()
      reads this
    {
      && Distinct(peers)
      && (forall p :: p in peers ==> p in infos)
      && (forall p :: p in infos ==> p < nextPeer)
    }

    constructor (hooks: AdapterHookable)
      ensures this.hooks == hooks && peers == [] && infos == map[] && log == [] && nextPeer == 0
      ensures Valid()
    {
      this.hooks := hooks;
      peers := [];
      infos := map[];
      log := [];
      nextPeer := 0;
    }

    /** `handleUpgrade(request, info)`: a `Response` from the hook is returned
        as it is and no peer comes into being; otherwise a new peer is created
        and added to the set before its socket opens. */
    method HandleUpgrade(request: RequestId, info: ServeHandlerInfo) returns (out: Completion<DenoReply>)
      requires Valid()
      modifies this`peers, this`infos, this`nextPeer
      ensures Valid()
      ensures var res := hooks.CallHook(UpgradeHook, RequestSubject(request), Undefined).result;
        res.Abrupt? ==> out == Abrupt(res.thrown) && peers == old(peers) && infos == old(infos) && nextPeer == old(nextPeer)
      ensures var res := hooks.CallHook(UpgradeHook, RequestSubject(request), Undefined).result;
        res.Normal? && res.value.Resp? ==>
          out == Normal(HookResponse(res.value.resp)) && peers == old(peers) && infos == old(infos) && nextPeer == old(nextPeer)
      ensures var res := hooks.CallHook(UpgradeHook, RequestSubject(request), Undefined).result;
        res.Normal? && !res.value.Resp? ==>
          && out == Normal(UpgradeResponse(old(nextPeer), OptionalHeaders(res.value)))
          && old(nextPeer) !in old(peers)
          && peers == old(peers) + [old(nextPeer)]
          && infos == old(infos)[old(nextPeer) := info]
          && nextPeer == old(nextPeer) + 1
    {
      var d := hooks.CallHook(UpgradeHook, RequestSubject(request), Undefined);
      match d.result
      case Abrupt(e) =>
        out := Abrupt(e);
      case Normal(res) =>
        if res.Resp? {
          out := Normal(HookResponse(res.resp));
        } else {
          var peer := nextPeer;
          nextPeer := nextPeer + 1;
          infos := infos[peer := info];
          peers := Insert(peers, peer);
          out := Normal(UpgradeResponse(peer, OptionalHeaders(res)));
        }
    }

    /** The socket's `open` event: the peer is already in the set. */
    method OnOpen(peer: PeerId)
      modifies this`log
      ensures log == old(log) + [Dispatched(OpenHook, peer, peers)]
    {
      log := log + [Dispatched(OpenHook, peer, peers)];
    }

    /** The socket's `message` event. */
    method OnMessage(peer: PeerId)
      modifies this`log
      ensures log == old(log) + [Dispatched(MessageHook, peer, peers)]
    {
      log := log + [Dispatched(MessageHook, peer, peers)];
    }

    /** The socket's `close` event: the peer leaves the set before `close` is dispatched. */
    method OnClose(peer: PeerId)
      requires Valid()
      modifies this`peers, this`log
      ensures Valid()
      ensures peers == Remove(old(peers), peer) && peer !in peers
      ensures log == old(log) + [Dispatched(CloseHook, peer, peers)]
    {
      peers := Remove(peers, peer);
      log := log + [Dispatched(CloseHook, peer, peers)];
    }

    /** The socket's `error` event: the peer leaves the set before `error` is dispatched. */
    method OnError(peer: PeerId)
      requires Valid()
      modifies this`peers, this`log
      ensures Valid()
      ensures peers == Remove(old(peers), peer) && peer !in peers
      ensures log == old(log) + [Dispatched(ErrorHook, peer, peers)]
    {
      peers := Remove(peers, peer);
      log := log + [Dispatched(ErrorHook, peer, peers)];
    }

    /** `DenoPeer.remoteAddress`: the hostname of the remote address the
        runtime reported at upgrade time, and none when it reported none. */
    function RemoteAddress(peer: PeerId): (addr: Option<string>)
      reads this
      requires peer in infos
      ensures addr.None? <==> infos[peer].remoteAddr.None?
      ensures addr.Some? ==> addr.value == infos[peer].remoteAddr.value.hostname
    {
      RemoteHostname(infos[peer])
    }

    /** `DenoPeer.send` */
    method Send(peer: PeerId, data: Bytes)
      modifies this`log
      ensures log == old(log) + [Sent(peer, data)]
    {
      log := log + [Sent(peer, data)];
    }

    /** `DenoPeer.publish`: every other subscribed member of the set gets one send. */
    method PeerPublish(from: PeerId, topics: map<PeerId, set<Topic>>, topic: Topic, data: Bytes)
      modifies this`log
      ensures log == old(log) + Deliveries(peers, topics, from, topic, data)
    {
      var sends := CollectDeliveries(peers, topics, from, topic, data);
      log := log + sends;
    }

    /** The adapter's `publish` (from `adapterUtils`): through the first peer of the set. */
    method Publish(topics: map<PeerId, set<Topic>>, topic: Topic, data: Bytes)
      modifies this`log
      ensures log == old(log) + Adapter.Publish(peers, topics, topic, data)
    {
      if peers != [] {
        var first := peers[0];
        Send(first, data);
        PeerPublish(first, topics, topic, data);
      }
    }

    /** `DenoPeer.close` */
    method Close(peer: PeerId, code: Option<int>, reason: Option<string>)
      modifies this`log
      ensures log == old(log) + [Closed(peer, code, reason)]
    {
      log := log + [Closed(peer, code, reason)];
    }

    /** `DenoPeer.terminate` */
    method Terminate(peer: PeerId)
      modifies this`log
      ensures log == old(log) + [Terminated(peer)]
    {
      log := log + [Terminated(peer)];
    }
  }
}

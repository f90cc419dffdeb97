/** The Bunny.net adapter: `upgrade` decides whether to answer at once; the
    subprotocol is negotiated from the upgrade headers; the runtime's
    `request.upgradeWebSocket` is called with options built field by field
    (or, in local development, Deno's upgrade); peers live in a per-namespace
    set that they leave on `close` only. */
module BunnyAdapter {
  import opened Base
  import opened PeerSets
  import opened FanOut
  import opened Hooks
  import opened Text
  import DenoAdapter

  /** The options of `request.upgradeWebSocket`; an absent field is not set on the object. */
  datatype UpgradeOptions = UpgradeOptions(protocol: Option<string>, idleTimeout: Option<int>)

  /** `headers.get("sec-websocket-protocol") ?? options.protocol` */
  function NegotiatedProtocol(h: Headers, configured: Option<string>): (r: Option<string>)
    ensures (forall i :: 0 <= i < |h| ==> h[i].0 != "sec-websocket-protocol") ==> r == configured
    ensures (exists i :: 0 <= i < |h| && h[i].0 == "sec-websocket-protocol") ==> r == HeadersGet(h, "sec-websocket-protocol") && r.Some?
  {
    var offered := HeadersGet(h, "sec-websocket-protocol");
    if offered.Some? then offered else configured
  }

  /** A single `sec-websocket-protocol` upgrade header wins over the configured
      protocol, even when its value is empty. */
  lemma UpgradeHeaderProtocolWins(h: Headers, k: nat, configured: Option<string>)
    requires k < |h| && h[k].0 == "sec-websocket-protocol"
    requires forall i :: 0 <= i < |h| && i != k ==> h[i].0 != "sec-websocket-protocol"
    ensures NegotiatedProtocol(h, configured) == Some(h[k].1)
  {
    HeadersGetSingle(h, "sec-websocket-protocol", k);
  }

  /** The options object of the Bunny upgrade: `protocol` only when the
      negotiated protocol is a non-empty string, `idleTimeout` only when it
      was configured, and no object at all when neither is set. */
  method AssembleUpgradeOptions(negotiated: Option<string>, idleTimeout: Option<int>) returns (r: Option<UpgradeOptions>)
    ensures r.None? <==> (negotiated.None? || negotiated.value == "") && idleTimeout.None?
    ensures r.Some? ==> r.value.idleTimeout == idleTimeout
    ensures r.Some? ==> (r.value.protocol.Some? <==> negotiated.Some? && negotiated.value != "")
    ensures r.Some? && r.value.protocol.Some? ==> r.value.protocol == negotiated
  {
    var options := UpgradeOptions(None, None);
    if negotiated.Some? && negotiated.value != "" {
      options := options.(protocol := negotiated);
    }
    if idleTimeout.Some? {
      options := options.(idleTimeout := idleTimeout);
    }
    if options.protocol.Some? || options.idleTimeout.Some? {
      r := Some(options);
    } else {
      r := None;
    }
  }

  /** The peer's remote address: the trimmed first entry of `x-forwarded-for`
      when that is not empty, else a non-empty `x-real-ip`, else none. */
  function ForwardedAddress(h: Headers): (addr: Option<string>)
    ensures addr.Some? ==> addr.value != ""
    ensures addr.None? <==>
      && (HeadersGet(h, "x-forwarded-for").None? || Trim(FirstField(HeadersGet(h, "x-forwarded-for").value)) == "")
      && (HeadersGet(h, "x-real-ip").None? || HeadersGet(h, "x-real-ip").value == "")
  {
    var forwarded := HeadersGet(h, "x-forwarded-for");
    var realIp := HeadersGet(h, "x-real-ip");
    if forwarded.Some? && Trim(FirstField(forwarded.value)) != "" then Some(Trim(FirstField(forwarded.value)))
    else if realIp.Some? && realIp.value != "" then realIp
    else None
  }

  /** A single `x-forwarded-for` header whose first entry is not blank decides
      the address: that entry, without surrounding whitespace and without any comma. */
  lemma ForwardedForWins(h: Headers, k: nat)
    requires k < |h| && h[k].0 == "x-forwarded-for"
    requires forall i :: 0 <= i < |h| && i != k ==> h[i].0 != "x-forwarded-for"
    requires Trim(FirstField(h[k].1)) != ""
    ensures ForwardedAddress(h) == Some(Trim(FirstField(h[k].1)))
    ensures ',' !in ForwardedAddress(h).value
  {
    HeadersGetSingle(h, "x-forwarded-for", k);
    TrimKeepsOnly(FirstField(h[k].1));
  }

  /** Without `x-forwarded-for`, a single non-empty `x-real-ip` is the address. */
  lemma RealIpFallback(h: Headers, k: nat)
    requires forall i :: 0 <= i < |h| ==> h[i].0 != "x-forwarded-for"
    requires k < |h| && h[k].0 == "x-real-ip" && h[k].1 != ""
    requires forall i :: 0 <= i < |h| && i != k ==> h[i].0 != "x-real-ip"
    ensures ForwardedAddress(h) == Some(h[k].1)
  {
    HeadersGetSingle(h, "x-real-ip", k);
  }

  /** What the runtime offers: Bunny's own `request.upgradeWebSocket`, and
      whether the code runs under Deno (the local-development fallback). */
  datatype Runtime = Runtime(hasUpgradeWebSocket: bool, underDeno: bool)

  /** What `handleUpgrade` resolves to. */
  datatype BunnyReply =
    | EndResponse(response: Value)
    | DenoUpgrade(peer: PeerId, protocol: string)
    | BunnyUpgrade(peer: PeerId, options: Option<UpgradeOptions>)

  /** The headers the `upgrade` hook asked for, as `new Headers` would take them. */
  function HeadersInit(u: UpgradeResult): Value
  {
    if u.upgradeHeaders.Some? then u.upgradeHeaders.value else Undefined
  }

  /** The peer table and the namespaced registry of a Bunny adapter. */
  class BunnyServer {
    const hooks: AdapterHookable
    const protocol: Option<string>
    const idleTimeout: Option<int>
    var registry: Registry
    var namespaceOf: map<PeerId, string>
    var remote: map<PeerId, Option<string>>
    var log: seq<Effect>
    var nextPeer: PeerId

    /** No duplicates in any namespace set; every member belongs to the set
        of its own namespace; every peer has a remote address entry. */
    ghost predicate Valid()
      reads this
    {
      && RegistryDistinct(registry)
      && Homed(registry, namespaceOf)
      && (forall p :: p in namespaceOf ==> p < nextPeer && p in remote)
    }

    constructor (hooks: AdapterHookable, protocol: Option<string>, idleTimeout: Option<int>)
      ensures this.hooks == hooks && this.protocol == protocol && this.idleTimeout == idleTimeout
      ensures registry == map[] && namespaceOf == map[] && remote == map[] && log == [] && nextPeer == 0
      ensures Valid()
    {
      this.hooks := hooks;
      this.protocol := protocol;
      this.idleTimeout := idleTimeout;
      registry := map[];
      namespaceOf := map[];
      remote := map[];
      log := [];
      nextPeer := 0;
    }

    /** Creates a peer in `namespace` and adds it to that namespace's set. */
    method AddPeer(namespace: string, address: Option<string>) returns (peer: PeerId)
      requires Valid()
      modifies this`registry, this`namespaceOf, this`remote, this`nextPeer
      ensures Valid()
      ensures peer == old(nextPeer) && nextPeer == old(nextPeer) + 1
      ensures peer !in Members(old(registry), namespace)
      ensures registry == RegistryAdd(old(registry), namespace, peer)
      ensures Members(registry, namespace) == Members(old(registry), namespace) + [peer]
      ensures namespaceOf == old(namespaceOf)[peer := namespace]
      ensures remote == old(remote)[peer := address]
    {
      peer := nextPeer;
      HomelessNotMember(registry, namespaceOf, namespace, peer);
      HomedAdd(registry, namespaceOf, namespace, peer);
      nextPeer := nextPeer + 1;
      registry := RegistryAdd(registry, namespace, peer);
      namespaceOf := namespaceOf[peer := namespace];
      remote := remote[peer := address];
    }

    /** No peer was created: the registry and the peer records are as given. */
    ghost predicate Kept(registry0: Registry, namespaceOf0: map<PeerId, string>, remote0: map<PeerId, Option<string>>, next0: PeerId)
      reads this
    {
      registry == registry0 && namespaceOf == namespaceOf0 && remote == remote0 && nextPeer == next0
    }

    /** Peer `next0` was created in `namespace` with `address`, as `AddPeer` does. */
    ghost predicate Grown(namespace: string, address: Option<string>,
                          registry0: Registry, namespaceOf0: map<PeerId, string>, remote0: map<PeerId, Option<string>>, next0: PeerId)
      reads this
    {
      && registry == RegistryAdd(registry0, namespace, next0)
      && namespaceOf == namespaceOf0[next0 := namespace]
      && remote == remote0[next0 := address]
      && nextPeer == next0 + 1
    }

    /** `handleUpgrade(request, denoInfo)` */
    method HandleUpgrade(request: UpgradeRequest, namespace: string, requestHeaders: Headers,
                         runtime: Runtime, denoInfo: DenoAdapter.ServeHandlerInfo)
      returns (out: Completion<BunnyReply>)
      requires Valid()
      modifies request, this`registry, this`namespaceOf, this`remote, this`nextPeer
      ensures Valid()
      ensures request.context != null
      ensures var u := Interpret(hooks.CallHook(UpgradeHook, RequestSubject(request.id), Undefined).result, request.context);
        // the hook threw something other than a response
        u.Abrupt? ==> out == Abrupt(u.thrown) && Kept(old(registry), old(namespaceOf), old(remote), old(nextPeer))
      ensures var u := Interpret(hooks.CallHook(UpgradeHook, RequestSubject(request.id), Undefined).result, request.context);
        // an end response is returned and no peer is created
        u.Normal? && u.value.endResponse.Some? ==>
          out == Normal(EndResponse(u.value.endResponse.value)) && Kept(old(registry), old(namespaceOf), old(remote), old(nextPeer))
      ensures var u := Interpret(hooks.CallHook(UpgradeHook, RequestSubject(request.id), Undefined).result, request.context);
        // headers `new Headers` rejects, or no way to upgrade at all
        u.Normal? && u.value.endResponse.None?
        && (ToHeaders(HeadersInit(u.value)).None? || (!runtime.hasUpgradeWebSocket && !runtime.underDeno)) ==>
          out.Abrupt? && Kept(old(registry), old(namespaceOf), old(remote), old(nextPeer))
      ensures var u := Interpret(hooks.CallHook(UpgradeHook, RequestSubject(request.id), Undefined).result, request.context);
        // the Deno fallback
        u.Normal? && u.value.endResponse.None? && ToHeaders(HeadersInit(u.value)).Some?
        && !runtime.hasUpgradeWebSocket && runtime.underDeno ==>
          var negotiated := NegotiatedProtocol(ToHeaders(HeadersInit(u.value)).value, protocol);
          && out == Normal(DenoUpgrade(old(nextPeer), if negotiated.Some? then negotiated.value else ""))
          && Grown(namespace, DenoAdapter.RemoteHostname(denoInfo), old(registry), old(namespaceOf), old(remote), old(nextPeer))
      ensures var u := Interpret(hooks.CallHook(UpgradeHook, RequestSubject(request.id), Undefined).result, request.context);
        // Bunny's own upgrade
        u.Normal? && u.value.endResponse.None? && ToHeaders(HeadersInit(u.value)).Some? && runtime.hasUpgradeWebSocket ==>
          var negotiated := NegotiatedProtocol(ToHeaders(HeadersInit(u.value)).value, protocol);
          && out.Normal? && out.value.BunnyUpgrade? && out.value.peer == old(nextPeer)
          && (out.value.options.None? <==> (negotiated.None? || negotiated.value == "") && idleTimeout.None?)
          && (out.value.options.Some? ==> out.value.options.value == UpgradeOptions(
                if negotiated.Some? && negotiated.value != "" then negotiated else None, idleTimeout))
          && Grown(namespace, ForwardedAddress(requestHeaders), old(registry), old(namespaceOf), old(remote), old(nextPeer))
    {
      var u := hooks.Upgrade(request);
      if u.Abrupt? {
        return Abrupt(u.thrown);
      }
      if u.value.endResponse.Some? {
        return Normal(EndResponse(u.value.endResponse.value));
      }
      var headers := ToHeaders(HeadersInit(u.value));
      if headers.None? {
        return Abrupt(Error("TypeError"));
      }
      var negotiated := NegotiatedProtocol(headers.value, protocol);
      if !runtime.hasUpgradeWebSocket && runtime.underDeno {
        var peer := AddPeer(namespace, DenoAdapter.RemoteHostname(denoInfo));
        return Normal(DenoUpgrade(peer, if negotiated.Some? then negotiated.value else ""));
      }
      if !runtime.hasUpgradeWebSocket {
        // `request.upgradeWebSocket` is not a function
        return Abrupt(Error("TypeError"));
      }
      var options := AssembleUpgradeOptions(negotiated, idleTimeout);
      var peer := AddPeer(namespace, ForwardedAddress(requestHeaders));
      out := Normal(BunnyUpgrade(peer, options));
    }

    /** The socket's `open` event. */
    method OnOpen(peer: PeerId)
      requires peer in namespaceOf
      modifies this`log
      ensures log == old(log) + [Dispatched(OpenHook, peer, Members(registry, namespaceOf[peer]))]
    {
      log := log + [Dispatched(OpenHook, peer, Members(registry, namespaceOf[peer]))];
    }

    /** The socket's `message` event. */
    method OnMessage(peer: PeerId)
      requires peer in namespaceOf
      modifies this`log
      ensures log == old(log) + [Dispatched(MessageHook, peer, Members(registry, namespaceOf[peer]))]
    {
      log := log + [Dispatched(MessageHook, peer, Members(registry, namespaceOf[peer]))];
    }

    /** The socket's `close` event: the peer leaves its namespace's set before `close` is dispatched. */
    method OnClose(peer: PeerId)
      requires Valid() && peer in namespaceOf
      modifies this`registry, this`log
      ensures Valid()
      ensures registry == RegistryRemove(old(registry), namespaceOf[peer], peer)
      ensures peer !in Members(registry, namespaceOf[peer])
      ensures log == old(log) + [Dispatched(CloseHook, peer, Members(registry, namespaceOf[peer]))]
    {
      HomedRemove(registry, namespaceOf, namespaceOf[peer], peer);
      registry := RegistryRemove(registry, namespaceOf[peer], peer);
      log := log + [Dispatched(CloseHook, peer, Members(registry, namespaceOf[peer]))];
    }

    /** The socket's `error` event: only the hook runs; the peer stays in its set. */
    method OnError(peer: PeerId)
      requires peer in namespaceOf
      modifies this`log
      ensures registry == old(registry)
      ensures log == old(log) + [Dispatched(ErrorHook, peer, Members(registry, namespaceOf[peer]))]
    {
      log := log + [Dispatched(ErrorHook, peer, Members(registry, namespaceOf[peer]))];
    }

    /** `BunnyPeer.remoteAddress`: the address fixed when the peer was created. */
    function RemoteAddress(peer: PeerId): (addr: Option<string>)
      reads this
      requires Valid() && peer in namespaceOf
      ensures addr == remote[peer]
    {
      remote[peer]
    }

    /** `BunnyPeer.send` */
    method Send(peer: PeerId, data: Bytes)
      modifies this`log
      ensures log == old(log) + [Sent(peer, data)]
    {
      log := log + [Sent(peer, data)];
    }

    /** `BunnyPeer.publish`: every other subscribed member of the publisher's namespace gets one send. */
    method PeerPublish(from: PeerId, topics: map<PeerId, set<Topic>>, topic: Topic, data: Bytes)
      requires from in namespaceOf
      modifies this`log
      ensures log == old(log) + Deliveries(Members(registry, namespaceOf[from]), topics, from, topic, data)
    {
      var sends := CollectDeliveries(Members(registry, namespaceOf[from]), topics, from, topic, data);
      log := log + sends;
    }

    /** `BunnyPeer.close` */
    method Close(peer: PeerId, code: Option<int>, reason: Option<string>)
      modifies this`log
      ensures log == old(log) + [Closed(peer, code, reason)]
    {
      log := log + [Closed(peer, code, reason)];
    }

    /** `BunnyPeer.terminate`: a close without code or reason. */
    method Terminate(peer: PeerId)
      modifies this`log
      ensures log == old(log) + [Closed(peer, None, None)]
    {
      Close(peer, None, None);
    }
  }

  /** A peer of another namespace is never reached by a publish: delivery stays
      inside the publisher's namespace set. */
  lemma PublishStaysInNamespace(reg: Registry, ns: string, topics: map<PeerId, set<Topic>>, from: PeerId, topic: Topic, data: Bytes, q: PeerId, d: Bytes)
    requires q !in Members(reg, ns)
    ensures Sent(q, d) !in Deliveries(Members(reg, ns), topics, from, topic, data)
  {
    if Sent(q, d) in Deliveries(Members(reg, ns), topics, from, topic, data) {
      DeliveriesOnlyToSubscribers(Members(reg, ns), topics, from, topic, data, Sent(q, d));
    }
  }
}

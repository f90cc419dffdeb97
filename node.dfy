/** The Node.js adapter over the `ws` library: one peer set, mutated by the
    `connection`, `error` and `close` events; the upgrade path that either
    answers with a plain HTTP response or hands over to `ws`; the `headers`
    handler; the Web `Request` proxy's URL; and the raw response writer. */
module NodeAdapter {
  import opened Base
  import opened PeerSets
  import opened FanOut
  import opened Hooks
  import opened Text
  import Adapter

  /** What the model reads from a Node `IncomingMessage`: the `host` and
      `x-forwarded-proto` headers, the request target, and the socket's
      `encrypted` flag (absent on a plain TCP socket). */
  datatype IncomingMessage = IncomingMessage(
    id: RequestId,
    host: Option<string>,
    forwardedProto: Option<string>,
    url: string,
    encrypted: Option<bool>)

  /** `socket.encrypted ?? (x-forwarded-proto === "https")`, read for truthiness. */
  predicate IsSecure(req: IncomingMessage)
  {
    match req.encrypted
    case Some(e) => e
    case None => req.forwardedProto == Some("https")
  }

  /** `req.headers.host || "localhost"` */
  function HostOf(req: IncomingMessage): (host: string)
    ensures host != ""
    ensures req.host.Some? && req.host.value != "" ==> host == req.host.value
  {
    if req.host.Some? && req.host.value != "" then req.host.value else "localhost"
  }

  /** The absolute URL the proxy reports: scheme, `://`, host, request target. */
  function RequestUrl(req: IncomingMessage): (url: string)
    ensures IsSecure(req) <==> |url| >= 8 && url[..8] == "https://"
    ensures IsSecure(req) ==> url[8..] == HostOf(req) + req.url
    ensures !IsSecure(req) ==> |url| >= 7 && url[..7] == "http://" && url[7..] == HostOf(req) + req.url
  {
    var url := (if IsSecure(req) then "https" else "http") + "://" + HostOf(req) + req.url;
    assert !IsSecure(req) ==> url[4] == ':';
    url
  }

  /** An explicit `encrypted` flag decides the scheme; `x-forwarded-proto` is
      only consulted when the socket has none. */
  lemma EncryptedFlagWins(req: IncomingMessage, proto: Option<string>)
    requires req.encrypted.Some?
    ensures var other := req.(forwardedProto := proto);
      (|RequestUrl(other)| >= 8 && RequestUrl(other)[..8] == "https://")
      <==> (|RequestUrl(req)| >= 8 && RequestUrl(req)[..8] == "https://")
  {
    assert IsSecure(req.(forwardedProto := proto)) == IsSecure(req);
  }

  /** `NodeReqProxy`: a Web-style view of an `IncomingMessage` that computes its URL once. */
  class NodeReqProxy {
    const req: IncomingMessage
    var cachedUrl: Option<string>

    ghost predicate Valid()
      reads this
    {
      cachedUrl.Some? ==> cachedUrl.value == RequestUrl(req)
    }

    constructor (req: IncomingMessage)
      ensures this.req == req && cachedUrl == None && Valid()
    {
      this.req := req;
      cachedUrl := None;
    }

    /** `get url()`: computed on first use, then served from the cache. */
    method Url() returns (url: string)
      requires Valid()
      modifies this
      ensures Valid()
      ensures url == RequestUrl(req)
      ensures cachedUrl == Some(url)
    {
      if cachedUrl.None? || cachedUrl.value == "" {
        cachedUrl := Some(RequestUrl(req));
      }
      url := cachedUrl.value;
    }
  }

  // ----- sendResponse -----

  /** What goes out on the raw socket. */
  datatype SocketWrite = WriteText(text: string) | WriteChunk(chunk: Bytes) | EndSocket

  /** `HTTP/1.1 <status || 200> <statusText || "">` */
  function StatusLine(r: Response): string
  {
    "HTTP/1.1 " + Decimal(if r.status == 0 then 200 else r.status) + " " + r.statusText
  }

  /** One header line, name and value percent-encoded. */
  function HeaderLine(name: string, value: string): string
  {
    EncodeURIComponent(name) + ": " + EncodeURIComponent(value)
  }

  /** The status line followed by one line per header entry, in order. */
  function HeadLines(r: Response): (lines: seq<string>)
    ensures |lines| == |r.headers| + 1
    ensures lines[0] == StatusLine(r)
    ensures forall i :: 0 <= i < |r.headers| ==> lines[i + 1] == HeaderLine(r.headers[i].0, r.headers[i].1)
  {
    [StatusLine(r)] + seq(|r.headers|, i requires 0 <= i < |r.headers| => HeaderLine(r.headers[i].0, r.headers[i].1))
  }

  /** The head `sendResponse` writes: the lines joined by CRLF, then an empty line. */
  function ResponseHead(r: Response): string
  {
    Join(HeadLines(r), CRLF) + CRLF + CRLF
  }

  /** Read back line by line, the head is exactly the status line, one line
      per header and the terminating empty line, provided the reason phrase
      holds no CR (header names and values cannot hold one once percent-encoded). */
  lemma ResponseHeadLines(r: Response)
    requires '\r' !in r.statusText
    ensures SplitCrlf(ResponseHead(r)) == HeadLines(r) + ["", ""]
  {
    HeadLinesHaveNoCr(r);
    SplitJoinedLines(HeadLines(r), CRLF);
    assert SplitCrlf(CRLF) == [""] + SplitCrlf("");
  }

  /** No line of the head holds a CR: the status line by assumption on the
      reason phrase, the header lines because percent-encoding escapes it. */
  lemma HeadLinesHaveNoCr(r: Response)
    requires '\r' !in r.statusText
    ensures forall i :: 0 <= i < |HeadLines(r)| ==> '\r' !in HeadLines(r)[i]
  {
    var lines := HeadLines(r);
    forall i | 0 <= i < |lines|
      ensures '\r' !in lines[i]
    {
      if i == 0 {
        StatusLineHasNoCr(r);
      } else {
        HeaderLineHasNoCr(r.headers[i - 1].0, r.headers[i - 1].1);
      }
    }
  }

  lemma StatusLineHasNoCr(r: Response)
    requires '\r' !in r.statusText
    ensures '\r' !in StatusLine(r)
  {
    var d := Decimal(if r.status == 0 then 200 else r.status);
    var line := StatusLine(r);
    assert line == "HTTP/1.1 " + d + " " + r.statusText;
    forall i | 0 <= i < |line|
      ensures line[i] != '\r'
    {
      if 9 <= i < 9 + |d| {
        assert line[i] == d[i - 9];
      } else if 10 + |d| <= i {
        assert line[i] == r.statusText[i - 10 - |d|];
      }
    }
  }

  lemma HeaderLineHasNoCr(name: string, value: string)
    ensures '\r' !in HeaderLine(name, value)
  {
    SafeLineHasNoCr(EncodeURIComponent(name), EncodeURIComponent(value));
  }

  /** `n: v` holds no CR when `n` and `v` hold only characters `encodeURIComponent` can produce. */
  lemma SafeLineHasNoCr(n: string, v: string)
    requires forall i :: 0 <= i < |n| ==> UriSafe(n[i])
    requires forall i :: 0 <= i < |v| ==> UriSafe(v[i])
    ensures '\r' !in n + ": " + v
  {
    var line := n + ": " + v;
    forall i | 0 <= i < |line|
      ensures line[i] != '\r'
    {
      if i < |n| {
        assert line[i] == n[i];
      } else if |n| + 2 <= i {
        assert line[i] == v[i - |n| - 2];
      }
    }
  }

  /** The body chunks, in order. */
  function ChunkWrites(chunks: seq<Bytes>): (ws: seq<SocketWrite>)
    ensures |ws| == |chunks|
    ensures forall i :: 0 <= i < |chunks| ==> ws[i] == WriteChunk(chunks[i])
  {
    seq(|chunks|, i requires 0 <= i < |chunks| => WriteChunk(chunks[i]))
  }

  /** Everything `sendResponse` puts on the socket: the head, the body chunks, the end. */
  function ResponseWrites(r: Response): (ws: seq<SocketWrite>)
    ensures |ws| == 2 + (if r.body.Some? then |r.body.value| else 0)
    ensures ws[0] == WriteText(ResponseHead(r)) && ws[|ws| - 1] == EndSocket
    ensures ws[1..|ws| - 1] == if r.body.Some? then ChunkWrites(r.body.value) else []
  {
    [WriteText(ResponseHead(r))] + (if r.body.Some? then ChunkWrites(r.body.value) else []) + [EndSocket]
  }

  /** The raw `Duplex` socket of an upgrade request. */
  class NodeSocket {
    var writes: seq<SocketWrite>

    constructor ()
      ensures writes == []
    {
      writes := [];
    }
  }

  /** `sendResponse(socket, res)` */
  method SendResponse(socket: NodeSocket, r: Response)
    modifies socket
    ensures socket.writes == old(socket.writes) + ResponseWrites(r)
  {
    socket.writes := socket.writes + [WriteText(ResponseHead(r))];
    if r.body.Some? {
      WriteChunks(socket, r.body.value);
    }
    socket.writes := socket.writes + [EndSocket];
  }

  /** The `for await … of res.body` loop of `sendResponse`: one write per chunk, in order. */
  method WriteChunks(socket: NodeSocket, chunks: seq<Bytes>)
    modifies socket
    ensures socket.writes == old(socket.writes) + ChunkWrites(chunks)
  {
    var i := 0;
    while i < |chunks|
      invariant 0 <= i <= |chunks|
      invariant socket.writes == old(socket.writes) + ChunkWrites(chunks[..i])
    {
      socket.writes := socket.writes + [WriteChunk(chunks[i])];
      i := i + 1;
    }
    assert chunks[..i] == chunks;
  }

  // ----- the upgrade path and the `headers` handler -----

  /** A Node request as the adapter augments it with the headers the `upgrade` hook asked for. */
  class NodeRequest {
    const message: IncomingMessage
    var upgradeHeaders: Value

    constructor (message: IncomingMessage)
      ensures this.message == message && upgradeHeaders == Undefined
    {
      this.message := message;
      upgradeHeaders := Undefined;
    }
  }

  /** `key: value`, one per header entry, in iteration order. */
  function HandshakeLines(h: Headers): (lines: seq<string>)
    ensures |lines| == |h|
    ensures forall i :: 0 <= i < |h| ==> lines[i] == h[i].0 + ": " + h[i].1
  {
    seq(|h|, i requires 0 <= i < |h| => h[i].0 + ": " + h[i].1)
  }

  /** The `headers` handler of the `ws` server: when the request carries
      upgrade headers, their entries are appended to the handshake's outgoing
      lines; headers that `new Headers` rejects make the handler throw. */
  method OnHeaders(outgoing: seq<string>, req: NodeRequest) returns (r: Completion<seq<string>>)
    ensures !Truthy(req.upgradeHeaders) ==> r == Normal(outgoing)
    ensures Truthy(req.upgradeHeaders) && ToHeaders(req.upgradeHeaders).None? ==> r.Abrupt?
    ensures Truthy(req.upgradeHeaders) && ToHeaders(req.upgradeHeaders).Some? ==>
      r == Normal(outgoing + HandshakeLines(ToHeaders(req.upgradeHeaders).value))
  {
    if !Truthy(req.upgradeHeaders) {
      return Normal(outgoing);
    }
    var parsed := ToHeaders(req.upgradeHeaders);
    if parsed.None? {
      return Abrupt(Error("TypeError"));
    }
    var h := parsed.value;
    var lines := outgoing;
    var i := 0;
    while i < |h|
      invariant 0 <= i <= |h|
      invariant lines == outgoing + HandshakeLines(h[..i])
    {
      lines := lines + [h[i].0 + ": " + h[i].1];
      i := i + 1;
    }
    assert h[..i] == h;
    r := Normal(lines);
  }

  /** How `handleUpgrade` ends when the hook does not throw. */
  datatype UpgradeStep = Responded | HandedToWs

  /** The adapter's state: the hooks, the peer set and what has been done. */
  class NodeServer {
    const hooks: AdapterHookable
    var peers: seq<PeerId>
    var log: seq<Effect>
    var nextPeer: PeerId

    ghost predicate Valid()
      reads this
    {
      Distinct(peers) && forall p :: p in peers ==> p < nextPeer
    }

    constructor (hooks: AdapterHookable)
      ensures this.hooks == hooks && peers == [] && log == [] && nextPeer == 0
      ensures Valid()
    {
      this.hooks := hooks;
      peers := [];
      log := [];
      nextPeer := 0;
    }

    /** `handleUpgrade`: a `Response` from the `upgrade` hook is written to the
        socket and the WebSocket handshake never starts; otherwise the hook's
        `headers` are stashed on the request for the `headers` handler. A hook
        that throws makes the returned promise reject. */
    method HandleUpgrade(req: NodeRequest, socket: NodeSocket) returns (out: Completion<UpgradeStep>)
      modifies req, socket
      ensures var res := hooks.CallHook(UpgradeHook, RequestSubject(req.message.id), Undefined).result;
        res.Abrupt? ==>
          out == Abrupt(res.thrown) && req.upgradeHeaders == old(req.upgradeHeaders) && socket.writes == old(socket.writes)
      ensures var res := hooks.CallHook(UpgradeHook, RequestSubject(req.message.id), Undefined).result;
        res.Normal? && res.value.Resp? ==>
          out == Normal(Responded) && req.upgradeHeaders == old(req.upgradeHeaders)
          && socket.writes == old(socket.writes) + ResponseWrites(res.value.resp)
      ensures var res := hooks.CallHook(UpgradeHook, RequestSubject(req.message.id), Undefined).result;
        res.Normal? && !res.value.Resp? ==>
          out == Normal(HandedToWs) && req.upgradeHeaders == OptionalHeaders(res.value) && socket.writes == old(socket.writes)
    {
      var d := hooks.CallHook(UpgradeHook, RequestSubject(req.message.id), Undefined);
      match d.result
      case Abrupt(e) =>
        out := Abrupt(e);
      case Normal(res) =>
        if res.Resp? {
          SendResponse(socket, res.resp);
          out := Normal(Responded);
        } else {
          req.upgradeHeaders := OptionalHeaders(res);
          out := Normal(HandedToWs);
        }
    }

    /** The `connection` event: the new peer joins the set, then `open` is dispatched. */
    method Connection() returns (peer: PeerId)
      requires Valid()
      modifies this
      ensures Valid()
      ensures peer == old(nextPeer) && peer !in old(peers) && nextPeer == old(nextPeer) + 1
      ensures peers == Insert(old(peers), peer) && peers == old(peers) + [peer]
      ensures log == old(log) + [Dispatched(OpenHook, peer, peers)]
    {
      peer := nextPeer;
      nextPeer := nextPeer + 1;
      peers := Insert(peers, peer);
      log := log + [Dispatched(OpenHook, peer, peers)];
    }

    /** The `message` event. */
    method OnMessage(peer: PeerId)
      modifies this`log
      ensures log == old(log) + [Dispatched(MessageHook, peer, peers)]
    {
      log := log + [Dispatched(MessageHook, peer, peers)];
    }

    /** The `error` event: the peer leaves the set before `error` is dispatched. */
    method OnError(peer: PeerId)
      requires Valid()
      modifies this`peers, this`log
      ensures Valid()
      ensures peers == Remove(old(peers), peer) && peer !in peers
      ensures log == old(log) + [Dispatched(ErrorHook, peer, peers)]
    {
      peers := Remove(peers, peer);
      log := log + [Dispatched(ErrorHook, peer, peers)];
    }

    /** The `close` event: the peer leaves the set before `close` is dispatched. */
    method OnClose(peer: PeerId)
      requires Valid()
      modifies this`peers, this`log
      ensures Valid()
      ensures peers == Remove(old(peers), peer) && peer !in peers
      ensures log == old(log) + [Dispatched(CloseHook, peer, peers)]
    {
      peers := Remove(peers, peer);
      log := log + [Dispatched(CloseHook, peer, peers)];
    }

    /** `NodePeer.send`: one `ws.send`, and the answer 0. */
    method Send(peer: PeerId, data: Bytes) returns (n: int)
      modifies this`log
      ensures n == 0
      ensures log == old(log) + [Sent(peer, data)]
    {
      log := log + [Sent(peer, data)];
      n := 0;
    }

    /** `NodePeer.publish`: walks the set and sends to every other subscribed peer. */
    method PeerPublish(from: PeerId, topics: map<PeerId, set<Topic>>, topic: Topic, data: Bytes)
      modifies this`log
      ensures log == old(log) + Deliveries(peers, topics, from, topic, data)
    {
      var sends := CollectDeliveries(peers, topics, from, topic, data);
      log := log + sends;
    }

    /** The adapter's `publish` (from `adapterUtils`): through the first peer of the set. */
    method Publish(topics: map<PeerId, set<Topic>>, topic: Topic, data: Bytes)
      modifies this`log
      ensures log == old(log) + Adapter.Publish(peers, topics, topic, data)
    {
      if peers != [] {
        var first := peers[0];
        var _ := Send(first, data);
        PeerPublish(first, topics, topic, data);
      }
    }

    /** `NodePeer.close` */
    method Close(peer: PeerId, code: Option<int>, reason: Option<string>)
      modifies this`log
      ensures log == old(log) + [Closed(peer, code, reason)]
    {
      log := log + [Closed(peer, code, reason)];
    }

    /** `NodePeer.terminate` */
    method Terminate(peer: PeerId)
      modifies this`log
      ensures log == old(log) + [Terminated(peer)]
    {
      log := log + [Terminated(peer)];
    }
  }
}

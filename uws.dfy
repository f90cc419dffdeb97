/** The uWebSockets.js adapter: the peer of a socket is created on first use
    and kept in the socket's user data; `open` and `close` maintain the
    per-namespace sets; `close` moves the peer's `readyState` from 1 through 2
    (while the hook is dispatched) to 3; topic subscriptions are mirrored into
    the native ones; and the `upgrade` handler writes either an end response or
    the 101 handshake, minding an abort signalled by the runtime. */
module UwsAdapter {
  import opened Base
  import opened PeerSets
  import opened Hooks
  import opened Text

  // ----- UWSReqProxy -----

  /** The value of the last `host` header, or `localhost` when there is none. */
  function LastHost(h: Headers): string
  {
    if h == [] then "localhost"
    else if h[|h| - 1].0 == "host" then h[|h| - 1].1
    else LastHost(h[..|h| - 1])
  }

  /** Some header says `x-forwarded-proto: https`. */
  predicate ForwardedHttps(h: Headers)
  {
    exists j :: 0 <= j < |h| && h[j] == ("x-forwarded-proto", "https")
  }

  /** The URL `UWSReqProxy` gives the Web request. */
  function UwsUrl(h: Headers, pathname: string, query: string): string
  {
    (if ForwardedHttps(h) then "https" else "http") + "://" + LastHost(h) + pathname
      + (if query != "" then "?" + query else "")
  }

  /** The host is the value of the last `host` header: later ones override earlier ones. */
  lemma {:induction false} LastHostWins(h: Headers, k: nat)
    requires k < |h| && h[k].0 == "host"
    requires forall i :: k < i < |h| ==> h[i].0 != "host"
    ensures LastHost(h) == h[k].1
    decreases |h|
  {
    if k < |h| - 1 {
      LastHostWins(h[..|h| - 1], k);
    }
  }

  /** Without a `host` header the host is `localhost`. */
  lemma {:induction false} NoHostIsLocalhost(h: Headers)
    requires forall i :: 0 <= i < |h| ==> h[i].0 != "host"
    ensures LastHost(h) == "localhost"
    decreases |h|
  {
    if h != [] {
      NoHostIsLocalhost(h[..|h| - 1]);
    }
  }

  /** The `UWSReqProxy` constructor: walks the request headers once, keeping
      every entry and noting the host and the forwarded scheme, then builds the
      URL; `?query` is appended only for a non-empty query. */
  method ProxyRequest(h: Headers, pathname: string, query: string) returns (url: string, rawHeaders: Headers)
    ensures rawHeaders == h
    ensures url == UwsUrl(h, pathname, query)
  {
    rawHeaders := [];
    var host := "localhost";
    var proto := "http";
    var i := 0;
    while i < |h|
      invariant 0 <= i <= |h|
      invariant rawHeaders == h[..i]
      invariant host == LastHost(h[..i])
      invariant proto == if ForwardedHttps(h[..i]) then "https" else "http"
    {
      var (key, value) := h[i];
      assert h[..i + 1][..i] == h[..i];
      if key == "host" {
        host := value;
      } else if key == "x-forwarded-proto" && value == "https" {
        proto := "https";
      }
      assert ForwardedHttps(h[..i + 1]) <==> ForwardedHttps(h[..i]) || h[i] == ("x-forwarded-proto", "https") by {
        if ForwardedHttps(h[..i]) {
          var j :| 0 <= j < i && h[..i][j] == ("x-forwarded-proto", "https");
          assert h[..i + 1][j] == h[..i][j];
        }
        if ForwardedHttps(h[..i + 1]) {
          var j :| 0 <= j < i + 1 && h[..i + 1][j] == ("x-forwarded-proto", "https");
          if j < i {
            assert h[..i][j] == h[..i + 1][j];
          }
        }
        assert h[..i + 1][i] == h[i];
      }
      rawHeaders := rawHeaders + [(key, value)];
      i := i + 1;
    }
    assert h[..i] == h;
    url := proto + "://" + host + pathname + (if query != "" then "?" + query else "");
  }

  // ----- the upgrade handler -----

  /** What the handler does to the uWS `HttpResponse`. */
  datatype HttpWrite =
    | WroteStatus(status: string)
    | WroteHeader(name: string, value: string)
    | WroteChunk(chunk: Bytes)
    | Ended
    | Upgraded(socket: SocketId)

  /** The HTTP response object of one upgrade request. */
  class HttpResponse {
    var writes: seq<HttpWrite>

    constructor ()
      ensures writes == []
    {
      writes := [];
    }
  }

  /** `onAborted` fires at some point or never; `abortAfter == Some(n)` means
      the flag is seen as set by every check made after `n` body chunks have
      been written (`Some(0)`: aborted before any write). */
  predicate AbortedAfter(abortAfter: Option<nat>, written: nat)
  {
    abortAfter.Some? && abortAfter.value <= written
  }

  /** A value as a template literal shows it, for the values a status can take. */
  function TemplateText(v: Value): string
  {
    match v
    case Undefined => "undefined"
    case Null => "null"
    case Bool(b) => if b then "true" else "false"
    case Num(n) => if n < 0 then "-" + Decimal(-n) else Decimal(n)
    case Str(s) => s
    case _ => "[object Object]"
  }

  /** `${status} ${statusText}` of the end response; a primitive has neither. */
  function EndStatus(e: Value): string
  {
    match e
    case Resp(r) => Decimal(r.status) + " " + r.statusText
    case Obj(_, _, _, status, statusText, _) => TemplateText(status) + " " + TemplateText(statusText)
    case _ => "undefined undefined"
  }

  /** The header entries of the end response, or `None` when they are not iterable. */
  function EndHeaders(e: Value): Option<Headers>
  {
    if e.Resp? then Some(e.resp.headers)
    else if e.Obj? && e.headers.HeaderList? then Some(e.headers.entries)
    else None
  }

  /** The body chunks of the end response (none when it has no body). */
  function EndBody(e: Value): seq<Bytes>
  {
    match e
    case Resp(r) => if r.body.Some? then r.body.value else []
    case Obj(_, _, _, _, _, body) => if body.Some? then body.value else []
    case _ => []
  }

  function HeaderWrites(h: Headers): (ws: seq<HttpWrite>)
    ensures |ws| == |h|
    ensures forall i :: 0 <= i < |h| ==> ws[i] == WroteHeader(h[i].0, h[i].1)
  {
    seq(|h|, i requires 0 <= i < |h| => WroteHeader(h[i].0, h[i].1))
  }

  function ChunkWrites(chunks: seq<Bytes>): (ws: seq<HttpWrite>)
    ensures |ws| == |chunks|
    ensures forall i :: 0 <= i < |chunks| ==> ws[i] == WroteChunk(chunks[i])
  {
    seq(|chunks|, i requires 0 <= i < |chunks| => WroteChunk(chunks[i]))
  }

  /** How many chunks get written before the abort is noticed. */
  function WrittenCount(n: nat, abortAfter: Option<nat>): (k: nat)
    ensures k <= n
    ensures k < n ==> AbortedAfter(abortAfter, k)
    ensures forall j :: 0 <= j < k ==> !AbortedAfter(abortAfter, j)
  {
    if abortAfter.Some? && abortAfter.value < n then abortAfter.value else n
  }

  /** The body chunks written before the abort is seen, then `end` unless aborted. */
  function BodyWrites(chunks: seq<Bytes>, abortAfter: Option<nat>): seq<HttpWrite>
  {
    var k := WrittenCount(|chunks|, abortAfter);
    ChunkWrites(chunks[..k]) + (if AbortedAfter(abortAfter, k) then [] else [Ended])
  }

  /** The writes of the end-response branch. */
  function EndWrites(e: Value, abortAfter: Option<nat>): seq<HttpWrite>
  {
    [WroteStatus(EndStatus(e))]
      + match EndHeaders(e)
        case None => []
        case Some(h) => HeaderWrites(h) + BodyWrites(EndBody(e), abortAfter)
  }

  /** The writes of the handshake branch. */
  function SwitchWrites(upgradeHeaders: Option<Value>, abortAfter: Option<nat>, socket: SocketId): seq<HttpWrite>
  {
    if AbortedAfter(abortAfter, 0) then []
    else
      [WroteStatus("101 Switching Protocols")]
        + match upgradeHeaders
          case None => [Upgraded(socket)]
          case Some(v) =>
            match ToHeaders(v)
            case None => []
            case Some(h) => HeaderWrites(h) + [Upgraded(socket)]
  }

  /** Everything the handler writes, given how `upgrade` ended. */
  function UpgradeWrites(u: Completion<UpgradeResult>, abortAfter: Option<nat>, socket: SocketId): seq<HttpWrite>
  {
    if u.Abrupt? then []
    else if u.value.endResponse.Some? then EndWrites(u.value.endResponse.value, abortAfter)
    else SwitchWrites(u.value.upgradeHeaders, abortAfter, socket)
  }

  /** Whether the handler's promise rejects: the hook threw, or a header list could not be read. */
  predicate UpgradeRejects(u: Completion<UpgradeResult>, abortAfter: Option<nat>)
  {
    || u.Abrupt?
    || (u.value.endResponse.Some? && EndHeaders(u.value.endResponse.value).None?)
    || (u.value.endResponse.None? && !AbortedAfter(abortAfter, 0)
        && u.value.upgradeHeaders.Some? && ToHeaders(u.value.upgradeHeaders.value).None?)
  }

  /** Whether the handler upgrades the connection. */
  predicate Upgrades(u: Completion<UpgradeResult>, abortAfter: Option<nat>)
  {
    && u.Normal? && u.value.endResponse.None? && !AbortedAfter(abortAfter, 0)
    && (u.value.upgradeHeaders.None? || ToHeaders(u.value.upgradeHeaders.value).Some?)
  }

  /** The connection is upgraded exactly when there is no end response, no
      abort before the hook settled, and the upgrade headers can be read. */
  lemma UpgradedIff(u: Completion<UpgradeResult>, abortAfter: Option<nat>, socket: SocketId)
    ensures Upgraded(socket) in UpgradeWrites(u, abortAfter, socket) <==> Upgrades(u, abortAfter)
  {
    if u.Normal? && u.value.endResponse.Some? {
      EndResponseNeverUpgrades(u.value.endResponse.value, abortAfter, socket);
    } else if Upgrades(u, abortAfter) {
      assert UpgradeWrites(u, abortAfter, socket)[|UpgradeWrites(u, abortAfter, socket)| - 1] == Upgraded(socket);
    } else if u.Normal? && !AbortedAfter(abortAfter, 0) {
      assert UpgradeWrites(u, abortAfter, socket) == [WroteStatus("101 Switching Protocols")];
    }
  }

  /** With an end response the socket is never upgraded. */
  lemma EndResponseNeverUpgrades(e: Value, abortAfter: Option<nat>, socket: SocketId)
    ensures Upgraded(socket) !in EndWrites(e, abortAfter)
  {
    var k := WrittenCount(|EndBody(e)|, abortAfter);
    if EndHeaders(e).Some? {
      var h := EndHeaders(e).value;
      var tail := HeaderWrites(h) + (ChunkWrites(EndBody(e)[..k]) + (if AbortedAfter(abortAfter, k) then [] else [Ended]));
      assert EndWrites(e, abortAfter) == [WroteStatus(EndStatus(e))] + tail;
      forall i | 0 <= i < |tail|
        ensures !tail[i].Upgraded?
      {
        if i < |h| {
          assert tail[i] == HeaderWrites(h)[i];
        } else if i < |h| + k {
          assert tail[i] == ChunkWrites(EndBody(e)[..k])[i - |h|];
        }
      }
    }
  }

  /** A status line, header writes, chunk writes and a tail: each part sits
      where it was put, and `end` appears exactly when the tail holds it. */
  lemma WritesLayout(w: HttpWrite, hs: seq<HttpWrite>, cs: seq<HttpWrite>, tail: seq<HttpWrite>)
    requires w != Ended
    requires forall i :: 0 <= i < |hs| ==> hs[i].WroteHeader?
    requires forall i :: 0 <= i < |cs| ==> cs[i].WroteChunk?
    ensures var ws := [w] + (hs + (cs + tail));
      && ws[0] == w
      && ws[1..1 + |hs|] == hs
      && ws[1 + |hs|..1 + |hs| + |cs|] == cs
      && (Ended in ws <==> Ended in tail)
  {
    var ws := [w] + (hs + (cs + tail));
    assert ws[1..1 + |hs|] == hs;
    assert ws[1 + |hs|..1 + |hs| + |cs|] == cs;
    assert ws[1 + |hs| + |cs|..] == tail;
    forall i | 0 <= i < 1 + |hs| + |cs|
      ensures ws[i] != Ended
    {
      if 1 <= i < 1 + |hs| {
        assert ws[i] == hs[i - 1];
      } else if 1 + |hs| <= i {
        assert ws[i] == cs[i - 1 - |hs|];
      }
    }
    assert ws == ws[..1 + |hs| + |cs|] + tail;
  }

  /** The end-response writes: the status line; then, when the headers can be
      iterated, every header, the body up to the point where the abort is
      seen, and `end` exactly when no abort was noticed. */
  lemma EndWritesShape(e: Value, abortAfter: Option<nat>)
    ensures EndWrites(e, abortAfter)[0] == WroteStatus(EndStatus(e))
    ensures EndHeaders(e).None? ==> EndWrites(e, abortAfter) == [WroteStatus(EndStatus(e))]
    ensures EndHeaders(e).Some? ==>
      var ws := EndWrites(e, abortAfter);
      var h := EndHeaders(e).value;
      var k := WrittenCount(|EndBody(e)|, abortAfter);
      && ws[1..1 + |h|] == HeaderWrites(h)
      && ws[1 + |h|..1 + |h| + k] == ChunkWrites(EndBody(e)[..k])
      && (Ended in ws <==> !AbortedAfter(abortAfter, k))
  {
    if EndHeaders(e).Some? {
      var h := EndHeaders(e).value;
      var k := WrittenCount(|EndBody(e)|, abortAfter);
      var tail: seq<HttpWrite> := if AbortedAfter(abortAfter, k) then [] else [Ended];
      assert BodyWrites(EndBody(e), abortAfter) == ChunkWrites(EndBody(e)[..k]) + tail;
      assert EndWrites(e, abortAfter) == [WroteStatus(EndStatus(e))] + (HeaderWrites(h) + BodyWrites(EndBody(e), abortAfter));
      WritesLayout(WroteStatus(EndStatus(e)), HeaderWrites(h), ChunkWrites(EndBody(e)[..k]), tail);
    }
  }

  /** For an end `Response`: `${status} ${statusText}`, every header, the
      body up to the point where the abort is seen, and `end` exactly when no
      abort was noticed. */
  lemma EndResponseEndsUnlessAborted(r: Response, abortAfter: Option<nat>)
    ensures var ws := EndWrites(Resp(r), abortAfter);
      var body := if r.body.Some? then r.body.value else [];
      var k := WrittenCount(|body|, abortAfter);
      && ws[0] == WroteStatus(Decimal(r.status) + " " + r.statusText)
      && ws[1..1 + |r.headers|] == HeaderWrites(r.headers)
      && ws[1 + |r.headers|..1 + |r.headers| + k] == ChunkWrites(body[..k])
      && (Ended in ws <==> !AbortedAfter(abortAfter, k))
  {
    EndWritesShape(Resp(r), abortAfter);
  }

  /** For a plain object that ends the upgrade (`ok === false`): its own
      `status` and `statusText` as the status line; headers that are not a
      header list stop the handler right after it; otherwise the headers, the
      body up to the abort, and `end` unless aborted. */
  lemma PlainEndResponse(headers: Value, response: Value, status: Value, statusText: Value, body: Option<seq<Bytes>>, abortAfter: Option<nat>, context: Context)
    ensures var e := Obj(Bool(false), headers, response, status, statusText, body);
      var ws := EndWrites(e, abortAfter);
      && ws[0] == WroteStatus(TemplateText(status) + " " + TemplateText(statusText))
      && (!headers.HeaderList? ==> ws == [ws[0]] && UpgradeRejects(Normal(UpgradeResult(context, None, Some(e))), abortAfter))
      && (headers.HeaderList? ==>
        var h := headers.entries;
        var chunks := if body.Some? then body.value else [];
        var k := WrittenCount(|chunks|, abortAfter);
        && ws[1..1 + |h|] == HeaderWrites(h)
        && ws[1 + |h|..1 + |h| + k] == ChunkWrites(chunks[..k])
        && (Ended in ws <==> !AbortedAfter(abortAfter, k)))
  {
    EndWritesShape(Obj(Bool(false), headers, response, status, statusText, body), abortAfter);
  }

  /** An upgrade hook that answers `{ ok: false, status: 403, statusText:
      "Forbidden" }` gets the status line `403 Forbidden`; as the object has
      no `headers`, iterating them throws and nothing else is written. */
  lemma ForbiddenObjectScenario(context: Context, abortAfter: Option<nat>)
    ensures var e := Obj(Bool(false), Undefined, Undefined, Num(403), Str("Forbidden"), None);
      var u := Interpret(Normal(e), context);
      && u == Normal(UpgradeResult(context, None, Some(e)))
      && UpgradeWrites(u, abortAfter, 0) == [WroteStatus("403 Forbidden")]
      && UpgradeRejects(u, abortAfter)
  {
    var e := Obj(Bool(false), Undefined, Undefined, Num(403), Str("Forbidden"), None);
    RejectionBeforeHeaders(e, context);
    assert Decimal(4) == "4";
    assert Decimal(40) == "40";
    assert Decimal(403) == "403";
    assert EndStatus(e) == "403 Forbidden";
    EndWritesShape(e, abortAfter);
  }

  /** Without an end response, an abort before the hook settled means nothing
      is written; otherwise the 101 status comes first, then every upgrade
      header in order, then the upgrade. */
  lemma HandshakeWrites(upgradeHeaders: Option<Value>, abortAfter: Option<nat>, socket: SocketId)
    ensures AbortedAfter(abortAfter, 0) ==> SwitchWrites(upgradeHeaders, abortAfter, socket) == []
    ensures !AbortedAfter(abortAfter, 0) && upgradeHeaders.Some? && ToHeaders(upgradeHeaders.value).Some? ==>
      var h := ToHeaders(upgradeHeaders.value).value;
      SwitchWrites(upgradeHeaders, abortAfter, socket)
        == [WroteStatus("101 Switching Protocols")] + HeaderWrites(h) + [Upgraded(socket)]
    ensures !AbortedAfter(abortAfter, 0) && upgradeHeaders.None? ==>
      SwitchWrites(upgradeHeaders, abortAfter, socket) == [WroteStatus("101 Switching Protocols"), Upgraded(socket)]
  {
  }

  /** `for (const [key, value] of headers) res.writeHeader(key, value)` */
  method WriteHeaders(res: HttpResponse, h: Headers)
    modifies res
    ensures res.writes == old(res.writes) + HeaderWrites(h)
  {
    var i := 0;
    while i < |h|
      invariant 0 <= i <= |h|
      invariant res.writes == old(res.writes) + HeaderWrites(h[..i])
    {
      res.writes := res.writes + [WroteHeader(h[i].0, h[i].1)];
      i := i + 1;
    }
    assert h[..i] == h;
  }

  /** The body loop, which stops at the first check that sees the abort,
      then `end` unless the abort has been seen. */
  method StreamBody(res: HttpResponse, chunks: seq<Bytes>, abortAfter: Option<nat>)
    modifies res
    ensures res.writes == old(res.writes) + BodyWrites(chunks, abortAfter)
  {
    var written := 0;
    while written < |chunks|
      invariant 0 <= written <= |chunks|
      invariant forall j :: 0 <= j < written ==> !AbortedAfter(abortAfter, j)
      invariant res.writes == old(res.writes) + ChunkWrites(chunks[..written])
    {
      if AbortedAfter(abortAfter, written) {
        break;
      }
      res.writes := res.writes + [WroteChunk(chunks[written])];
      written := written + 1;
    }
    assert written == WrittenCount(|chunks|, abortAfter);
    if !AbortedAfter(abortAfter, written) {
      res.writes := res.writes + [Ended];
    }
  }

  /** The end-response branch: status, headers, the body until the abort is
      seen, and `end` unless aborted. Rejects when the headers are not iterable. */
  method WriteEndResponse(res: HttpResponse, e: Value, abortAfter: Option<nat>) returns (out: Completion<()>)
    modifies res
    ensures res.writes == old(res.writes) + EndWrites(e, abortAfter)
    ensures out.Abrupt? <==> EndHeaders(e).None?
  {
    res.writes := res.writes + [WroteStatus(EndStatus(e))];
    var headers := EndHeaders(e);
    if headers.None? {
      // `endResponse.headers` is not iterable
      return Abrupt(Error("TypeError"));
    }
    ghost var head := res.writes;
    WriteHeaders(res, headers.value);
    StreamBody(res, EndBody(e), abortAfter);
    assert res.writes == head + (HeaderWrites(headers.value) + BodyWrites(EndBody(e), abortAfter));
    out := Normal(());
  }

  /** The handshake branch once no abort has been seen: 101, the upgrade
      headers, and the upgrade itself. Rejects when `new Headers` does. */
  method WriteHandshake(res: HttpResponse, upgradeHeaders: Option<Value>, socket: SocketId) returns (out: Completion<()>)
    modifies res
    ensures res.writes == old(res.writes) + SwitchWrites(upgradeHeaders, None, socket)
    ensures out.Abrupt? <==> upgradeHeaders.Some? && ToHeaders(upgradeHeaders.value).None?
  {
    res.writes := res.writes + [WroteStatus("101 Switching Protocols")];
    if upgradeHeaders.Some? {
      var headers := ToHeaders(upgradeHeaders.value);
      if headers.None? {
        return Abrupt(Error("TypeError"));
      }
      WriteHeaders(res, headers.value);
    }
    res.writes := res.writes + [Upgraded(socket)];
    out := Normal(());
  }

  /** A socket's user data: the namespace and context fixed at upgrade, and the peer once created. */
  datatype UserData = UserData(namespace: string, context: Context, peer: Option<PeerId>)

  /** Every socket's peer, once created, lives in the socket's namespace. */
  predicate SocketsHomed(sockets: map<SocketId, UserData>, home: map<PeerId, string>)
  {
    forall s :: s in sockets && sockets[s].peer.Some? ==>
      sockets[s].peer.value in home && home[sockets[s].peer.value] == sockets[s].namespace
  }

  class UwsServer {
    const hooks: AdapterHookable
    var registry: Registry
    var sockets: map<SocketId, UserData>
    var home: map<PeerId, string>
    var readyState: map<PeerId, nat>
    var topics: map<PeerId, set<Topic>>
    var native: map<PeerId, set<Topic>>
    var log: seq<Effect>
    var nextPeer: PeerId

    /** Sets have no duplicates and hold only peers of their own namespace;
        a socket's peer lives in the socket's namespace; every peer has a
        `readyState`; and `_topics` agrees with the native subscriptions. */
    ghost predicate Valid()
      reads this
    {
      && RegistryDistinct(registry)
      && Homed(registry, home)
      && SocketsHomed(sockets, home)
      && (forall p :: p in home ==> p < nextPeer && p in readyState)
      && topics == native
    }

    constructor (hooks: AdapterHookable)
      ensures this.hooks == hooks && registry == map[] && sockets == map[] && home == map[]
      ensures readyState == map[] && topics == map[] && native == map[] && log == [] && nextPeer == 0
      ensures Valid()
    {
      this.hooks := hooks;
      registry := map[];
      sockets := map[];
      home := map[];
      readyState := map[];
      topics := map[];
      native := map[];
      log := [];
      nextPeer := 0;
    }

    /** What `getPeer(ws)` leaves behind, given the state before it: the peer
        already stored in the socket's user data with nothing changed, or a
        fresh peer stored there and homed in the socket's namespace. */
    ghost predicate Attached(ws: SocketId, peer: PeerId, sockets0: map<SocketId, UserData>, home0: map<PeerId, string>, next0: PeerId)
      requires ws in sockets0
      reads this
    {
      && ws in sockets && sockets[ws].peer == Some(peer)
      && peer in home && home[peer] == sockets0[ws].namespace
      && (sockets0[ws].peer.Some? ==>
        && peer == sockets0[ws].peer.value
        && sockets == sockets0 && home == home0 && nextPeer == next0)
      && (sockets0[ws].peer.None? ==>
        && peer == next0 && peer !in home0 && nextPeer == next0 + 1
        && sockets == sockets0[ws := sockets0[ws].(peer := Some(peer))]
        && home == home0[peer := sockets0[ws].namespace])
    }

    /** `getPeer(ws)`: the peer stored in the socket's user data, created and
        stored on first use with `readyState` OPEN (1). */
    method GetPeer(ws: SocketId) returns (peer: PeerId)
      requires Valid() && ws in sockets
      modifies this`sockets, this`home, this`readyState, this`nextPeer
      ensures Valid()
      ensures Attached(ws, peer, old(sockets), old(home), old(nextPeer))
      ensures readyState == if old(sockets[ws].peer).Some? then old(readyState) else old(readyState)[peer := 1]
      ensures registry == old(registry)
    {
      var data := sockets[ws];
      if data.peer.Some? {
        return data.peer.value;
      }
      peer := nextPeer;
      HomedExtend(registry, home, peer, data.namespace);
      nextPeer := nextPeer + 1;
      sockets := sockets[ws := data.(peer := Some(peer))];
      home := home[peer := data.namespace];
      readyState := readyState[peer := 1];
    }

    /** The `open` handler: the peer joins its namespace's set, then `open` is dispatched. */
    method Open(ws: SocketId) returns (peer: PeerId)
      requires Valid() && ws in sockets
      modifies this`sockets, this`home, this`readyState, this`nextPeer, this`registry, this`log
      ensures Valid()
      ensures Attached(ws, peer, old(sockets), old(home), old(nextPeer))
      ensures readyState == if old(sockets[ws].peer).Some? then old(readyState) else old(readyState)[peer := 1]
      ensures var ns := old(sockets[ws].namespace);
        && registry == RegistryAdd(old(registry), ns, peer)
        && peer in Members(registry, ns)
        && log == old(log) + [Dispatched(OpenHook, peer, Members(registry, ns))]
    {
      var ns := sockets[ws].namespace;
      peer := GetPeer(ws);
      JoinNamespace(ns, peer);
    }

    /** `getPeers(globalPeers, namespace).add(peer)`, then the `open` dispatch. */
    method JoinNamespace(ns: string, peer: PeerId)
      requires Valid() && peer in home && home[peer] == ns
      modifies this`registry, this`log
      ensures Valid()
      ensures registry == RegistryAdd(old(registry), ns, peer)
      ensures log == old(log) + [Dispatched(OpenHook, peer, Members(registry, ns))]
    {
      HomedJoin(registry, home, ns, peer);
      registry := RegistryAdd(registry, ns, peer);
      log := log + [Dispatched(OpenHook, peer, Members(registry, ns))];
    }

    /** The `message` handler. */
    method Message(ws: SocketId) returns (peer: PeerId)
      requires Valid() && ws in sockets
      modifies this`sockets, this`home, this`readyState, this`nextPeer, this`log
      ensures Valid()
      ensures Attached(ws, peer, old(sockets), old(home), old(nextPeer))
      ensures readyState == if old(sockets[ws].peer).Some? then old(readyState) else old(readyState)[peer := 1]
      ensures registry == old(registry)
      ensures log == old(log) + [Dispatched(MessageHook, peer, Members(registry, old(sockets[ws].namespace)))]
    {
      var ns := sockets[ws].namespace;
      peer := GetPeer(ws);
      log := log + [Dispatched(MessageHook, peer, Members(registry, ns))];
    }

    /** The `close` handler: CLOSING (2) and out of the set while `close` is
        dispatched, CLOSED (3) afterwards. */
    method Close(ws: SocketId) returns (peer: PeerId)
      requires Valid() && ws in sockets
      modifies this`sockets, this`home, this`readyState, this`nextPeer, this`registry, this`log
      ensures Valid()
      ensures Attached(ws, peer, old(sockets), old(home), old(nextPeer))
      ensures readyState == old(readyState)[peer := 3]
      ensures var ns := old(sockets[ws].namespace);
        && registry == RegistryRemove(old(registry), ns, peer)
        && peer !in Members(registry, ns)
        && log == old(log) + [DispatchedClosing(peer, Members(registry, ns), 2)]
    {
      var ns := sockets[ws].namespace;
      peer := GetPeer(ws);
      LeaveNamespace(ns, peer);
    }

    /** `readyState` CLOSING (2), `getPeers(globalPeers, namespace).delete(peer)`,
        the `close` dispatch, then `readyState` CLOSED (3). */
    method LeaveNamespace(ns: string, peer: PeerId)
      requires Valid()
      modifies this`registry, this`log, this`readyState
      ensures Valid()
      ensures registry == RegistryRemove(old(registry), ns, peer)
      ensures log == old(log) + [DispatchedClosing(peer, Members(registry, ns), 2)]
      ensures readyState == old(readyState)[peer := 3]
    {
      readyState := readyState[peer := 2];
      HomedRemove(registry, home, ns, peer);
      registry := RegistryRemove(registry, ns, peer);
      log := log + [DispatchedClosing(peer, Members(registry, ns), readyState[peer])];
      readyState := readyState[peer := 3];
    }

    /** The `upgrade` handler. `abortAfter` stands for the runtime's `onAborted`
        callback; `socket` is the socket the runtime creates on `res.upgrade`. */
    method Upgrade(res: HttpResponse, webReq: UpgradeRequest, namespace: string, abortAfter: Option<nat>, socket: SocketId)
      returns (out: Completion<()>)
      requires Valid() && socket !in sockets
      modifies res, webReq, this`sockets
      ensures Valid()
      ensures webReq.context != null
      ensures var u := Interpret(hooks.CallHook(UpgradeHook, RequestSubject(webReq.id), Undefined).result, webReq.context);
        && res.writes == old(res.writes) + UpgradeWrites(u, abortAfter, socket)
        && (out.Abrupt? <==> UpgradeRejects(u, abortAfter))
        && sockets == if Upgrades(u, abortAfter) then old(sockets)[socket := UserData(namespace, webReq.context, None)] else old(sockets)
    {
      var u := hooks.Upgrade(webReq);
      if u.Abrupt? {
        return Abrupt(u.thrown);
      }
      if u.value.endResponse.Some? {
        out := WriteEndResponse(res, u.value.endResponse.value, abortAfter);
        return;
      }
      if AbortedAfter(abortAfter, 0) {
        return Normal(());
      }
      out := WriteHandshake(res, u.value.upgradeHeaders, socket);
      if out.Normal? {
        sockets := sockets[socket := UserData(namespace, u.value.context, None)];
      }
    }

    /** `UWSPeer.subscribe`: `_topics` and the native subscription both gain the topic. */
    method Subscribe(peer: PeerId, topic: Topic)
      requires Valid()
      modifies this`topics, this`native, this`log
      ensures Valid()
      ensures peer in topics && topics[peer] == old(if peer in topics then topics[peer] else {}) + {topic}
      ensures forall q :: q != peer ==> (q in topics <==> q in old(topics)) && (q in topics ==> topics[q] == old(topics[q]))
      ensures log == old(log) + [NativeSubscribed(peer, topic)]
    {
      var current := if peer in topics then topics[peer] else {};
      topics := topics[peer := current + {topic}];
      native := native[peer := current + {topic}];
      log := log + [NativeSubscribed(peer, topic)];
    }

    /** `UWSPeer.unsubscribe`: `_topics` and the native subscription both lose the topic. */
    method Unsubscribe(peer: PeerId, topic: Topic)
      requires Valid()
      modifies this`topics, this`native, this`log
      ensures Valid()
      ensures peer in topics && topics[peer] == old(if peer in topics then topics[peer] else {}) - {topic}
      ensures forall q :: q != peer ==> (q in topics <==> q in old(topics)) && (q in topics ==> topics[q] == old(topics[q]))
      ensures log == old(log) + [NativeUnsubscribed(peer, topic)]
    {
      var current := if peer in topics then topics[peer] else {};
      topics := topics[peer := current - {topic}];
      native := native[peer := current - {topic}];
      log := log + [NativeUnsubscribed(peer, topic)];
    }

    /** `UWSPeer.publish`: handed to the native multicast; the answer is 0. */
    method Publish(peer: PeerId, topic: Topic, data: Bytes) returns (n: int)
      modifies this`log
      ensures n == 0
      ensures log == old(log) + [NativePublished(peer, topic, data)]
    {
      log := log + [NativePublished(peer, topic, data)];
      n := 0;
    }

    /** `UWSPeer.send`: the native send's own answer is returned. */
    method Send(peer: PeerId, data: Bytes, nativeResult: int) returns (n: int)
      modifies this`log
      ensures n == nativeResult
      ensures log == old(log) + [Sent(peer, data)]
    {
      log := log + [Sent(peer, data)];
      n := nativeResult;
    }

    /** `UWSPeer.close`: `uws.end(code, reason)`. */
    method ClosePeer(peer: PeerId, code: Option<int>, reason: Option<string>)
      modifies this`log
      ensures log == old(log) + [Closed(peer, code, reason)]
    {
      log := log + [Closed(peer, code, reason)];
    }

    /** `UWSPeer.terminate`: `uws.close()`. */
    method Terminate(peer: PeerId)
      modifies this`log
      ensures log == old(log) + [Terminated(peer)]
    {
      log := log + [Terminated(peer)];
    }
  }
}

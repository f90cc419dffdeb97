# crossws core, modelled in Dafny

crossws is a cross-runtime WebSocket layer. Applications write one set of
hooks: `upgrade`, `open`, `message`, `close` and `error`. Runtime adapters
then deliver those hooks on Node.js (`ws`), Deno, Bunny.net,
uWebSockets.js and Bun. This project models the parts that decide what
happens to a connection:

- **the hook dispatcher** (`AdapterHookable`):
  - `callHook` calls the global hook first, then consults the per-request
    resolver and merges the two results with JavaScript `||`;
  - `upgrade` attaches a context to the request once and sorts the hook's
    outcome into proceed, proceed with extra headers, end with a response,
    or rethrow;
- **the adapter helpers**:
  - the adapter-level `publish`, which goes through the first peer of the
    set;
  - `defineWebSocketAdapter`, which returns its factory unchanged;
- **the five adapters**:
  - the peer registry that each adapter keeps: one insertion-ordered set,
    or one such set per namespace;
  - the upgrade branches;
  - getting or creating a peer for a socket;
  - publish fan-out and subscriptions;
  - `readyState`;
  - the strings and byte streams each adapter builds: request URLs, the raw
    HTTP response Node writes, the uWS status/header/body writes, and
    Bunny's forwarded address and negotiated subprotocol.

## How the model is built

- **Modules.** Each adapter is its own module:
  - `NodeAdapter`, `DenoAdapter`, `BunnyAdapter`, `UwsAdapter` and
    `BunAdapter`;
  - on top of them, `Base` (shared vocabulary), `PeerSets` (the registry),
    `FanOut` (topic fan-out), `Hooks` (the dispatcher), `Adapter` (the
    shared helpers) and `Text` (the JavaScript and web string operations
    the adapters use).
- **Peer sets.** A JavaScript `Set<Peer>` is a duplicate-free
  `seq<PeerId>` kept in insertion order. `add` appends and `delete` removes
  in place, so "the first peer" is element 0.
  - The namespaced registry `Map<string, Set<Peer>>` is a
    `map<string, seq<PeerId>>`.
  - `Members` reads an absent namespace as the empty set.
- **Values.** Hook results and thrown values form a small JavaScript
  `Value` datatype. `Truthy` and `Or` are JavaScript truthiness and `||`.
- **Timing.** A hook settles now (a synchronous return or throw) or later
  (through a promise). `callHook` is a pure function that returns its call
  trace and its completion.
- **Adapter state.** Each adapter is a class whose fields the handlers
  update: the registry, the socket user data, `readyState`, `_topics` and
  the native subscriptions. Each class has an invariant `Valid()`:
  - every set is duplicate-free;
  - every member of a namespace set belongs to that namespace;
  - every socket's cached peer lives in the socket's namespace;
  - `_topics` mirrors the native subscriptions.
- **Observable effects.** What the outside world observes goes into an
  effect log. Sends, closes, native pub/sub calls and hook dispatches are
  all logged. A dispatch records a snapshot of the peer's set at the moment
  the hook runs, which is how "the peer has already left the set when
  `close` runs" is stated.
- **Loops.** Loops in the source stay loops in the model, each proved
  against a specification function:
  - the `ws.send` fan-out;
  - `sendResponse`'s chunk loop;
  - the `headers` handler;
  - the `UWSReqProxy` header walk;
  - the uWS header and body loops.

## Model

| member | source | states |
|---|---|---|
| PeerSets.Insert | src/adapters/node.ts:55 | `set.add`: membership becomes old members plus the peer, duplicates never appear, an existing member leaves the set unchanged, and a new one is appended at the end |
| PeerSets.Remove | src/adapters/node.ts:67 | `set.delete`: membership loses exactly the peer, the others keep their order and stay distinct, and the size drops by one exactly when the peer was present |
| PeerSets.RemoveAbsent | src/adapters/node.ts:71-72 | deleting a peer that is not in the set leaves the set unchanged |
| PeerSets.RemoveIdempotent | src/adapters/node.ts:66-78 | deleting twice equals deleting once, so `error` followed by `close` for the same peer is harmless |
| PeerSets.RemoveAppend | src/adapters/node.ts:67 | deleting from a concatenation deletes from each part |
| PeerSets.InsertThenRemove | src/adapters/deno.ts:52-65 | adding a new peer and deleting it again restores the original set, order included |
| PeerSets.RegistryAdd | src/adapters/uws.ts:74-76 | `getPeers(reg, ns).add(p)` changes only namespace `ns`, whose members gain `p`, and keeps every set duplicate-free |
| PeerSets.RegistryRemove | src/adapters/uws.ts:56-60 | `getPeers(reg, ns).delete(p)` changes only namespace `ns`, whose members lose `p`, and keeps every set duplicate-free |
| PeerSets.HomelessNotMember | src/adapters/bunny.ts:120-129 | a peer that belongs to no namespace is in no namespace set |
| PeerSets.HomedExtend | src/adapters/uws.ts:153-161 | recording a home for a new peer keeps every set member in its own namespace |
| PeerSets.HomedAdd | src/adapters/bunny.ts:120-129 | adding a peer to namespace `ns` while recording `ns` as its home keeps every member in its own namespace |
| PeerSets.HomedJoin | src/adapters/uws.ts:74-76 | a peer already homed in `ns` joining `ns`'s set keeps every member in its own namespace |
| PeerSets.HomedRemove | src/adapters/uws.ts:56-60 | deleting a peer from a namespace set keeps every member in its own namespace |
| FanOut.DeliveriesOnlyToSubscribers | src/adapters/node.ts:168-172 | every send of a peer publish carries the published data to a member other than the publisher that is subscribed to the topic |
| FanOut.DeliveriesExactlyOnce | src/adapters/node.ts:168-172 | over a duplicate-free set, each subscribed member other than the publisher receives exactly one send and nobody else receives any |
| FanOut.NoSelfDelivery | src/adapters/node.ts:169 | the publisher never receives its own publish, even when it is subscribed |
| FanOut.RemovedPeerNotReached | src/adapters/node.ts:71-72 | a peer deleted from the set is not reached by any later publish |
| FanOut.CollectDeliveries | src/adapters/deno.ts:93-100 | the `for … of peers` loop with the `peer !== this && peer._topics.has(topic)` guard yields exactly the sends of the fan-out specification, in set order |
| Adapter.Publish | src/adapter.ts:7-13 | the adapter-level publish does nothing on an empty set; otherwise its first effect is sending the message to the first peer, followed by that peer's fan-out |
| Adapter.PublishReaches | src/adapter.ts:8-12 | over a duplicate-free set, the first peer gets the message exactly once whether or not it subscribed, each other subscribed member exactly once, and nobody else |
| Adapter.PublishOnlyToMembers | src/adapter.ts:8-12 | every effect of an adapter-level publish is a send of the published data to a member of the set |
| Adapter.DefineWebSocketAdapter | src/adapter.ts:34-39 | the factory is returned unchanged |
| Hooks.ResolveTarget | src/hooks.ts:23 | the resolver receives the peer's request when the peer has one, and the argument itself otherwise |
| Hooks.OptionalHeaders | src/adapters/node.ts:119 | `res?.headers` is `undefined` for a nullish result |
| Hooks.AdapterHookable.CallHook | src/hooks.ts:18-36 | the only call orders are: the global hook (if there is one), then the resolver with `ResolveTarget(arg1)`, then the resolved hook, each hook with the caller's arguments; the outcome differs from the global hook's only when the resolver has run; a synchronous throw of the global hook stops the dispatch. The merge itself is stated by `FastPath`, `FalsyResolverFallsBack` and `MergeRule` |
| Hooks.FastPath | src/hooks.ts:19-27 | without a resolver, the result is the global hook's own outcome (`undefined` when there is none), after at most one call |
| Hooks.FalsyResolverFallsBack | src/hooks.ts:24-27 | a resolver that synchronously returns nothing yields the global hook's outcome |
| Hooks.MergeRule | src/hooks.ts:34-41 | when both sides complete normally, a truthy resolved-hook result wins, a falsy one or a missing resolved hook falls back to the global result, and a throwing resolved hook rejects |
| Hooks.MergeScenario | src/hooks.ts:34-41 | a resolved `upgrade` hook's headers override the global hook's, and a resolved hook that returns nothing leaves the global headers in place |
| Hooks.Interpret | src/hooks.ts:60-87 | an `upgrade` outcome never carries both an end response and upgrade headers, upgrade headers are always truthy, the context is the request's, and a rejection only comes from a throw |
| Hooks.AdapterHookable.Upgrade | src/hooks.ts:44-88 | an existing request context is kept, a missing one is replaced by a fresh empty one, and the result is the classification of the merged `upgrade` outcome |
| Hooks.FalsyResultProceeds | src/hooks.ts:65-67 | a falsy hook result proceeds with neither headers nor an end response |
| Hooks.RejectionBeforeHeaders | src/hooks.ts:68-76 | `ok === false` is checked before `headers`: such a result becomes the end response even when it carries headers |
| Hooks.ReturnedErrorResponseEnds | src/hooks.ts:68-70 | a returned non-2xx `Response` becomes the end response |
| Hooks.HeadersPassedOn | src/hooks.ts:71-76 | a non-rejecting result with truthy `headers` passes those headers on as the upgrade headers |
| Hooks.ThrownResponseEnds | src/hooks.ts:77-84 | a thrown `Response`, or a thrown object whose `response` is a `Response`, becomes the end response |
| Hooks.OtherThrowRethrown | src/hooks.ts:85 | any other non-nullish thrown value is rethrown unchanged |
| Hooks.UnauthorizedScenario | test/fixture/_shared.ts:65-76 | a global `upgrade` hook that throws `{ response: 401 Unauthorized }` makes `upgrade` end with that response, whatever the resolver is |
| Hooks.DefineHooks | src/hooks.ts:93-97 | the hooks are returned unchanged |
| Text.Decimal | src/adapters/node.ts:217 | `${n}` is a non-empty string of digits with no leading zero |
| Text.DecimalRoundTrip | src/adapters/node.ts:217 | reading the decimal digits back gives the number |
| Text.Utf8 | src/adapters/node.ts:220 | a character encodes as 1 to 4 bytes, as one byte equal to its code exactly when it is ASCII |
| Text.PercentBytes | src/adapters/node.ts:220 | `%XX` escapes take three characters per byte, all of them `encodeURIComponent`-safe |
| Text.EncodeURIComponent | src/adapters/node.ts:220 | the result consists only of unreserved characters and `%`, an all-unreserved input is returned unchanged, and the output is never shorter than the input |
| Text.TrimStart | src/adapters/bunny.ts:116 | `trimStart()` drops exactly the leading whitespace |
| Text.TrimEnd | src/adapters/bunny.ts:116 | `trimEnd()` drops exactly the trailing whitespace |
| Text.TrimShape | src/adapters/bunny.ts:116 | `trim()` keeps one contiguous piece of its input, with only whitespace on either side, that neither starts nor ends with whitespace |
| Text.TrimKeepsOnly | src/adapters/bunny.ts:116 | every character `trim()` keeps comes from its input |
| Text.FirstField | src/adapters/bunny.ts:116 | `split(",").shift()` is the longest comma-free prefix, ended by a comma or by the end of the input |
| Text.ValuesOf | src/adapters/bunny.ts:67 | the values of a header name are empty exactly when no entry has that name |
| Text.HeadersGet | src/adapters/bunny.ts:67 | `headers.get(name)` is `null` exactly when no entry has that name |
| Text.HeadersGetSingle | src/adapters/bunny.ts:67 | with a single entry of that name, `get` answers its value |
| Text.SplitCrlfLine | src/adapters/node.ts:223 | a CR-free line followed by CRLF is split off as one line |
| Text.SplitJoinedLines | src/adapters/node.ts:223 | joining CR-free lines with CRLF and then splitting at CRLF gives the lines back |
| NodeAdapter.HostOf | src/adapters/node.ts:198 | the host is the non-empty `host` header, or `localhost` |
| NodeAdapter.RequestUrl | src/adapters/node.ts:195-205 | the URL starts with `https://` exactly when the connection counts as secure (otherwise `http://`), followed by host and request target |
| NodeAdapter.EncryptedFlagWins | src/adapters/node.ts:199-201 | when the socket has an `encrypted` flag, `x-forwarded-proto` cannot change the scheme |
| NodeAdapter.NodeReqProxy.Url | src/adapters/node.ts:195-205 | the URL getter always answers `RequestUrl` of its request and leaves it cached |
| NodeAdapter.HeadLines | src/adapters/node.ts:216-222 | the head is the status line followed by one percent-encoded `name: value` line per header entry, in order |
| NodeAdapter.ResponseHeadLines | src/adapters/node.ts:216-223 | read back line by line, the written head is exactly the status line, the header lines and the blank line ending the head, provided the reason phrase holds no CR |
| NodeAdapter.HeadLinesHaveNoCr | src/adapters/node.ts:216-222 | no head line holds a CR when the reason phrase holds none |
| NodeAdapter.StatusLineHasNoCr | src/adapters/node.ts:217 | the status line holds a CR only if the reason phrase does |
| NodeAdapter.HeaderLineHasNoCr | src/adapters/node.ts:220 | a percent-encoded header line never holds a CR, so a header cannot break the head |
| NodeAdapter.ChunkWrites | src/adapters/node.ts:224-228 | one socket write per body chunk, in order |
| NodeAdapter.ResponseWrites | src/adapters/node.ts:215-232 | the head comes first, then every body chunk in order, and the end comes last |
| NodeAdapter.SendResponse | src/adapters/node.ts:215-232 | the socket receives exactly the head, every body chunk in order, and the end |
| NodeAdapter.WriteChunks | src/adapters/node.ts:224-228 | the body loop writes exactly one chunk write per chunk, in order |
| NodeAdapter.HandshakeLines | src/adapters/node.ts:104-106 | one `key: value` line per header entry, in order |
| NodeAdapter.OnHeaders | src/adapters/node.ts:101-108 | outgoing lines are unchanged without upgrade headers, gain one line per entry otherwise, and headers that `new Headers` rejects make the handler throw |
| NodeAdapter.NodeServer.HandleUpgrade | src/adapters/node.ts:112-123 | a hook `Response` is written to the socket and the handshake never starts; otherwise `res?.headers` is stashed on the request; a throwing hook rejects with nothing written |
| NodeAdapter.NodeServer.Connection | src/adapters/node.ts:52-56 | a new peer is appended to the set before `open` is dispatched, so `open` sees the peer in the set |
| NodeAdapter.NodeServer.OnMessage | src/adapters/node.ts:59-65 | `message` is dispatched and the set is unchanged |
| NodeAdapter.NodeServer.OnError | src/adapters/node.ts:66-70 | the peer leaves the set before `error` is dispatched |
| NodeAdapter.NodeServer.OnClose | src/adapters/node.ts:71-78 | the peer leaves the set before `close` is dispatched |
| NodeAdapter.NodeServer.Send | src/adapters/node.ts:145-154 | one `ws.send` of the data, answering 0 |
| NodeAdapter.NodeServer.PeerPublish | src/adapters/node.ts:156-173 | exactly the fan-out sends, in set order |
| NodeAdapter.NodeServer.Publish | src/adapter.ts:7-13 | the adapter-level publish over the node peer set |
| NodeAdapter.NodeServer.Close | src/adapters/node.ts:175-177 | one `ws.close(code, data)` |
| NodeAdapter.NodeServer.Terminate | src/adapters/node.ts:179-181 | one `ws.terminate()` |
| DenoAdapter.RemoteHostname | src/adapters/deno.ts:85-87 | `remoteAddr?.hostname`: none exactly when there is no remote address |
| DenoAdapter.DenoServer.HandleUpgrade | src/adapters/deno.ts:37-72 | a hook `Response` is returned and no peer is created (set, `denoInfo` records and the peer counter unchanged); otherwise a fresh peer is appended to the set at once, before its socket opens, with its `denoInfo` recorded and `res?.headers` as the upgrade headers; a throwing hook rejects and changes nothing |
| DenoAdapter.DenoServer.OnOpen | src/adapters/deno.ts:53-56 | `open` is dispatched with the set unchanged |
| DenoAdapter.DenoServer.OnMessage | src/adapters/deno.ts:57-60 | `message` is dispatched with the set unchanged |
| DenoAdapter.DenoServer.OnClose | src/adapters/deno.ts:61-65 | the peer leaves the set before `close` is dispatched |
| DenoAdapter.DenoServer.OnError | src/adapters/deno.ts:66-70 | the peer leaves the set before `error` is dispatched |
| DenoAdapter.DenoServer.RemoteAddress | src/adapters/deno.ts:85-87 | the hostname the runtime reported at upgrade, or none |
| DenoAdapter.DenoServer.Send | src/adapters/deno.ts:89-91 | one `ws.send` of the data |
| DenoAdapter.DenoServer.PeerPublish | src/adapters/deno.ts:93-100 | exactly the fan-out sends, in set order |
| DenoAdapter.DenoServer.Publish | src/adapter.ts:7-13 | the adapter-level publish over the deno peer set |
| DenoAdapter.DenoServer.Close | src/adapters/deno.ts:102-104 | one `ws.close(code, reason)` |
| DenoAdapter.DenoServer.Terminate | src/adapters/deno.ts:106-108 | one `ws.terminate()` |
| BunnyAdapter.NegotiatedProtocol | src/adapters/bunny.ts:61-67 | an offered `sec-websocket-protocol` upgrade header wins (even when empty); without one the configured protocol is used |
| BunnyAdapter.UpgradeHeaderProtocolWins | src/adapters/bunny.ts:66-67 | a single `sec-websocket-protocol` entry decides the protocol, whatever is configured |
| BunnyAdapter.AssembleUpgradeOptions | src/adapters/bunny.ts:101-113 | `protocol` is set exactly when the negotiated protocol is a non-empty string, `idleTimeout` exactly when configured, and no options object is passed when neither is set |
| BunnyAdapter.ForwardedAddress | src/adapters/bunny.ts:115-118 | the address is never empty, and it is absent exactly when the first `x-forwarded-for` entry is blank or missing and `x-real-ip` is empty or missing |
| BunnyAdapter.ForwardedForWins | src/adapters/bunny.ts:116 | a non-blank first `x-forwarded-for` entry decides the address, trimmed and without a comma |
| BunnyAdapter.RealIpFallback | src/adapters/bunny.ts:117 | without `x-forwarded-for`, a non-empty `x-real-ip` is the address |
| BunnyAdapter.BunnyServer.AddPeer | src/adapters/bunny.ts:120-129 | a fresh peer is appended to its namespace's set (where it was not before) and nothing else in the registry changes |
| BunnyAdapter.BunnyServer.HandleUpgrade | src/adapters/bunny.ts:51-154 | the five branches: hook throw, end response (no peer), unreadable headers or no upgrade function (reject, no peer), the Deno fallback (protocol or `""`, Deno's remote hostname), and Bunny's own upgrade (assembled options, forwarded address), each new peer joining its namespace's set at once with its namespace and address recorded (`Grown`), and every branch without a peer leaving registry, records and counter as they were (`Kept`) |
| BunnyAdapter.BunnyServer.OnOpen | src/adapters/bunny.ts:131-133 | `open` is dispatched with the namespace set unchanged |
| BunnyAdapter.BunnyServer.OnMessage | src/adapters/bunny.ts:135-137 | `message` is dispatched with the namespace set unchanged |
| BunnyAdapter.BunnyServer.OnClose | src/adapters/bunny.ts:139-145 | the peer leaves its namespace's set before `close` is dispatched |
| BunnyAdapter.BunnyServer.OnError | src/adapters/bunny.ts:147-151 | `error` does not remove the peer, because Bunny also emits `close` |
| BunnyAdapter.BunnyServer.RemoteAddress | src/adapters/bunny.ts:170-172 | the address fixed when the peer was created |
| BunnyAdapter.BunnyServer.Send | src/adapters/bunny.ts:174-176 | one `ws.send` of the data |
| BunnyAdapter.BunnyServer.PeerPublish | src/adapters/bunny.ts:178-185 | exactly the fan-out sends over the publisher's own namespace set |
| BunnyAdapter.PublishStaysInNamespace | src/adapters/bunny.ts:178-185 | a peer outside the publisher's namespace set is never reached |
| BunnyAdapter.BunnyServer.Close | src/adapters/bunny.ts:187-189 | one `ws.close(code, reason)` |
| BunnyAdapter.BunnyServer.Terminate | src/adapters/bunny.ts:191-193 | `terminate` is a close without code or reason |
| UwsAdapter.LastHostWins | src/adapters/uws.ts:230-232 | the last `host` header wins |
| UwsAdapter.NoHostIsLocalhost | src/adapters/uws.ts:226 | without a `host` header the host is `localhost` |
| UwsAdapter.ProxyRequest | src/adapters/uws.ts:222-245 | every header entry is kept in order; the URL is `https` exactly when some entry is `x-forwarded-proto: https`, uses the last host, and gets `?query` only for a non-empty query |
| UwsAdapter.HeaderWrites | src/adapters/uws.ts:91-93 | one `writeHeader` per entry, in order |
| UwsAdapter.ChunkWrites | src/adapters/uws.ts:95-98 | one `write` per chunk, in order |
| UwsAdapter.WrittenCount | src/adapters/uws.ts:95-98 | the body loop writes chunks until the first check that sees the abort, and stops early only because of it |
| UwsAdapter.UpgradedIff | src/adapters/uws.ts:79-139 | the socket is upgraded exactly when there is no end response, no abort by the time the hook settled, and readable upgrade headers |
| UwsAdapter.EndResponseNeverUpgrades | src/adapters/uws.ts:89-104 | an end response never upgrades the socket |
| UwsAdapter.EndWritesShape | src/adapters/uws.ts:89-104 | for any end response: the status line first; when its headers are not iterable nothing follows; otherwise every header, the body up to the abort, and `end` exactly when no abort was seen |
| UwsAdapter.WritesLayout | src/adapters/uws.ts:89-104 | status, header writes, chunk writes and the tail each sit where they were put, and `end` appears only in the tail |
| UwsAdapter.EndResponseEndsUnlessAborted | src/adapters/uws.ts:89-104 | for an end `Response`: `${status} ${statusText}`, then every header, then the body up to the abort, and `end` exactly when no abort was seen |
| UwsAdapter.PlainEndResponse | src/adapters/uws.ts:89-104 | for a plain object with `ok === false`: its own `status` and `statusText` as the status line; headers that are not a header list make the handler reject right after it; otherwise headers, body up to the abort, and `end` unless aborted |
| UwsAdapter.ForbiddenObjectScenario | src/hooks.ts:68-69 | `{ ok: false, status: 403, statusText: "Forbidden" }` ends the upgrade; uWS writes `403 Forbidden` and then rejects, as the object has no iterable `headers` |
| UwsAdapter.HandshakeWrites | src/adapters/uws.ts:106-138 | aborted: nothing is written; otherwise `101`, every upgrade header in order, then the upgrade |
| UwsAdapter.WriteHeaders | src/adapters/uws.ts:91-93 | the header loop writes exactly `HeaderWrites` |
| UwsAdapter.StreamBody | src/adapters/uws.ts:94-102 | the body loop and the final `end` write exactly the chunks before the abort, then `end` unless aborted |
| UwsAdapter.WriteEndResponse | src/adapters/uws.ts:89-104 | the end-response branch writes exactly `EndWrites` and rejects exactly when the headers are not iterable |
| UwsAdapter.WriteHandshake | src/adapters/uws.ts:110-138 | the handshake branch writes `101`, the headers and the upgrade, and rejects exactly when `new Headers` does |
| UwsAdapter.UwsServer.Upgrade | src/adapters/uws.ts:79-139 | what gets written, whether the handler rejects, and that the new socket's user data (namespace, context, no peer yet) exists exactly when the connection is upgraded |
| UwsAdapter.UwsServer.GetPeer | src/adapters/uws.ts:148-163 | `Attached`: the cached peer is returned with nothing changed; otherwise a fresh peer is created in the socket's namespace and cached in the user data, with `readyState` 1 |
| UwsAdapter.UwsServer.Open | src/adapters/uws.ts:73-78 | the peer stored in the socket's user data (created on first use, `Attached`) joins its namespace's set before `open` is dispatched; `readyState` changes only for a new peer |
| UwsAdapter.UwsServer.JoinNamespace | src/adapters/uws.ts:76-77 | adding to the namespace set and dispatching `open` keeps the registry invariant |
| UwsAdapter.UwsServer.Message | src/adapters/uws.ts:68-72 | `message` is dispatched for the socket's stored peer (`Attached`) and the registry is unchanged |
| UwsAdapter.UwsServer.Close | src/adapters/uws.ts:55-67 | the socket's stored peer (`Attached`) leaves its namespace's set and `close` is dispatched with `readyState` 2 (CLOSING); afterwards that peer's `readyState` is 3 (CLOSED) and every other peer's is as before |
| UwsAdapter.UwsServer.LeaveNamespace | src/adapters/uws.ts:58-66 | the CLOSING/delete/dispatch/CLOSED sequence keeps the registry invariant |
| UwsAdapter.UwsServer.Subscribe | src/adapters/uws.ts:194-197 | `_topics` and the native subscription both gain the topic, other peers are untouched, and the two stay equal |
| UwsAdapter.UwsServer.Unsubscribe | src/adapters/uws.ts:199-202 | `_topics` and the native subscription both lose the topic, other peers are untouched, and the two stay equal |
| UwsAdapter.UwsServer.Publish | src/adapters/uws.ts:204-209 | one native publish, answering 0 |
| UwsAdapter.UwsServer.Send | src/adapters/uws.ts:188-192 | one native send, answering what the native send answers |
| UwsAdapter.UwsServer.ClosePeer | src/adapters/uws.ts:211-213 | `uws.end(code, reason)` |
| UwsAdapter.UwsServer.Terminate | src/adapters/uws.ts:215-217 | `uws.close()` |
| BunAdapter.Ascii | src/adapters/bun.ts:58 | the bytes of an ASCII string: one byte per character, equal to its code |
| BunAdapter.UpgradeFailed | src/adapters/bun.ts:57-59 | the refusal is a non-2xx 500 response whose body is the bytes of `Upgrade failed` |
| BunAdapter.BunServer.HandleUpgrade | src/adapters/bun.ts:41-60 | hook throw: reject; end response: returned; upgrade refused: the 500 response; accepted: `undefined`, and the new socket carries the namespace and the context |
| BunAdapter.BunServer.GetPeer | src/adapters/bun.ts:87-102 | `Attached`: the cached peer is returned with nothing changed; otherwise a fresh peer is created in the socket's namespace and cached in `ws.data` |
| BunAdapter.BunServer.Open | src/adapters/bun.ts:67-72 | the peer cached in `ws.data` (created on first use, `Attached`) joins its namespace's set before `open` is dispatched |
| BunAdapter.BunServer.JoinNamespace | src/adapters/bun.ts:70-71 | adding to the namespace set and dispatching `open` keeps the registry invariant |
| BunAdapter.BunServer.Message | src/adapters/bun.ts:62-66 | `message` is dispatched for the socket's cached peer (`Attached`) and the registry is unchanged |
| BunAdapter.BunServer.Close | src/adapters/bun.ts:73-78 | the socket's cached peer (`Attached`) leaves its namespace's set before `close` is dispatched |
| BunAdapter.BunServer.LeaveNamespace | src/adapters/bun.ts:76-77 | deleting from the namespace set and dispatching `close` keeps the registry invariant |
| BunAdapter.BunServer.Subscribe | src/adapters/bun.ts:134-137 | `_topics` and the native subscription both gain the topic, other peers are untouched |
| BunAdapter.BunServer.Unsubscribe | src/adapters/bun.ts:139-142 | `_topics` and the native subscription both lose the topic, other peers are untouched |
| BunAdapter.BunServer.Publish | src/adapters/bun.ts:122-132 | one native publish, answering what it answers |
| BunAdapter.BunServer.Send | src/adapters/bun.ts:118-120 | one native send, answering what it answers |
| BunAdapter.BunServer.ClosePeer | src/adapters/bun.ts:144-146 | `ws.close(code, reason)` |
| BunAdapter.BunServer.Terminate | src/adapters/bun.ts:148-150 | `ws.terminate()` |

## Left out

- **Adapter-level `publish` for bunny, uws and bun.** These adapters pass
  their `Map<string, Set<Peer>>` registry to `adapterUtils`, whose shown
  version expects a `Set<Peer>`. Its `publish` is therefore modelled only
  for the node and deno peer sets.
- **`getPeers`.** It is imported from `src/adapter.ts` but is not part of
  this model. The model reads it as "the namespace's set, empty when there
  is none". Adding or deleting always stores the namespace's resulting set
  in the map (`RegistryAdd`, `RegistryRemove`), even when a delete leaves
  an empty set for a namespace that had none. `Members` cannot tell an
  empty stored set from a missing one.
- **Namespace.** The shown `upgrade` does not return a `namespace`, so the
  namespaced adapters take it as an input of their upgrade handler.
- **The `Peer` base class.** `src/peer.ts` is not part of this model.
  - For node, deno and bunny, a peer's `_topics` is an input of `publish`,
    and their `subscribe`/`unsubscribe` are not modelled.
  - Peer ids, `context` and `request` are reduced to numbers and the
    subject passed to the hooks.
- **Adapter hooks.** `callAdapterHook` (the `node:*` and `deno:*` hooks)
  is not modelled; it only forwards to user code.
- **Hook arguments and effects.** Hook dispatch inside the adapters is
  recorded as an effect carrying the hook name, the peer and the set
  membership. The message, close details and error passed to the hook are
  not recorded, and what user hooks do is not modelled.
- **Concurrent promise rejections.** When the global hook and the resolver
  both reject, `Promise.all` rejects with whichever settles first. The
  model picks the global hook's rejection.
- Hooks.AdapterHookable.Upgrade: the model adds a plain `context` field
  where the source uses `Object.defineProperty` with `enumerable: true`.
- **Runtime failures as inputs.** Failures inside `Deno.upgradeWebSocket`,
  Bunny's `request.upgradeWebSocket`, Bun's `server.upgrade` and uWS's
  `res.upgrade` are inputs (Bun's `accepted`) or are not modelled.
  - Bun forwards the upgrade headers to `server.upgrade` unchecked; what
    Bun does with them is the runtime's business.
- **Remote addresses.** Node's `remoteAddress` (from `nodeReq.socket`),
  uWS's (text decoding of a native buffer inside `try`/`catch`) and Bun's
  (`ws.remoteAddress`) are runtime values and are not modelled.
- **Node.** `closeAll` iterates the `ws` library's own client set, which is
  not part of this model.
  - The `NodeReqProxy.headers` cache is not modelled.
  - Neither is the second proxy that `connection` creates.
- NodeAdapter.NodeReqProxy.Url: the `host` and `x-forwarded-proto` headers
  are each a single optional string, as Node's `IncomingMessage` gives
  them. Node's own header folding is not modelled.
- **Message payloads.** Payloads are byte sequences. `toBufferLike`, the
  binary flag and the `compress` option are not modelled.
- **uWS response details.** `res.cork` and the
  `sec-websocket-key`/`-protocol`/`-extensions` values handed to
  `res.upgrade` are not modelled. Only the socket id and its user data
  (namespace, context, peer) are.
- **uWS abort timing.** The `onAborted` callback is modelled by
  `abortAfter`: the number of body chunks written before the flag is seen
  as set (`Some(0)` means aborted before the hook settled or before any
  chunk). An abort is assumed to stay visible once set.
- **Native pub/sub.** The multicast of uWS and Bun is recorded as one
  native publish effect; who receives it is the runtime's business.
- **`Headers` normalisation.** `new Headers(init)` is read as accepting
  `undefined` and a list of entries (which covers `Headers`, arrays and
  records as entry lists) and rejecting anything else. Lower-casing,
  sorting and the combining of duplicate names are not modelled, except
  that `headers.get` joins duplicate values with `", "`.
- UwsAdapter.EndHeaders: a plain object that ends an upgrade may have a
  `headers` value that is a header list. That value is taken as iterable.
  A plain record there, which `for…of` rejects with a `TypeError`, is not
  distinguished from an entry array.
- UwsAdapter.EndBody: a plain object's `body` is either missing or falsy
  (`None`) or a sequence of chunks. A truthy body that is not async
  iterable, which makes `for await` throw, is not modelled.
- UwsAdapter.TemplateText: a `status` or `statusText` that is itself an
  object is rendered as `[object Object]`. JavaScript's own string
  conversion of `Response`, `Headers`, array and error objects is not
  modelled.
- **Numbers.** `Num` values are integers. NaN and fractional statuses are
  not modelled, and HTTP statuses are natural numbers.
- Text.EncodeURIComponent: Dafny characters are Unicode scalar values, so
  the `URIError` JavaScript throws on a lone surrogate cannot arise in the
  model.
- Text.IsWhitespace: follows the ECMAScript `WhiteSpace` and
  `LineTerminator` sets as fixed code points, without tracking later
  changes to the Unicode `Zs` category.

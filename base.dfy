/** Vocabulary shared by every part of the model: identities of peers and
    sockets, payloads, Fetch-style headers and responses, and the observable
    effects that the adapters leave behind. */
module Base {

  datatype Option<+T> = None | Some(value: T)

  /** A peer object; two peers are the same JavaScript object iff their ids are equal. */
  type PeerId = nat
  /** A runtime socket handle (a uWebSockets.js or Bun ServerWebSocket). */
  type SocketId = nat
  /** A request object handed to the hooks. */
  type RequestId = nat
  type Topic = string
  /** An octet. */
  newtype byte = x: int | 0 <= x < 256
  type Bytes = seq<byte>

  /** The entries of a Fetch `Headers` object, in its iteration order. */
  type Headers = seq<(string, string)>

  /** The five lifecycle hooks. */
  datatype HookName = UpgradeHook | OpenHook | MessageHook | CloseHook | ErrorHook

  /** A Fetch `Response`: status, reason phrase, header list and an optional body stream. */
  datatype Response = Response(status: nat, statusText: string, headers: Headers, body: Option<seq<Bytes>>)
  {
    /** `response.ok` */
    predicate Ok() { 200 <= status <= 299 }
  }

  /** What the adapters do that can be observed from outside: socket sends,
      native pub/sub calls, closes, and hook dispatches (with the membership of
      the peer's registry set at the moment the hook is dispatched). */
  datatype Effect =
    | Sent(to: PeerId, data: Bytes)
    | Dispatched(hook: HookName, peer: PeerId, registered: seq<PeerId>)
    | DispatchedClosing(peer: PeerId, registered: seq<PeerId>, readyState: nat)
    | NativePublished(from: PeerId, topic: Topic, data: Bytes)
    | NativeSubscribed(peer: PeerId, topic: Topic)
    | NativeUnsubscribed(peer: PeerId, topic: Topic)
    | Closed(peer: PeerId, code: Option<int>, reason: Option<string>)
    | Terminated(peer: PeerId)
}

/** The hook dispatcher (`AdapterHookable`): a global hook set plus an
    optional per-request resolver, merged with JavaScript `||`, and the
    interpretation of the `upgrade` hook's outcome. Promises are modelled by
    when a value settles (now or later) and how (returned or thrown); the
    order of the calls is kept as a trace. */
module Hooks {
  import opened Base

  /** The JavaScript values a hook can return or throw, as far as the
      dispatcher and the adapters look at them. `Obj` is any other object,
      reduced to the properties that are ever read from it: `ok`, `headers`
      and `response` by the dispatcher, and `status`, `statusText` and `body`
      when the object ends an upgrade under uWebSockets.js (`body` is `None`
      when missing or falsy, otherwise the chunks it yields). */
  datatype Value =
    | Undefined
    | Null
    | Bool(b: bool)
    | Num(n: int)
    | Str(s: string)
    | Resp(resp: Response)
    | HeaderList(entries: Headers)
    | Obj(ok: Value, headers: Value, response: Value, status: Value, statusText: Value, body: Option<seq<Bytes>>)
    | Error(message: string)

  /** JavaScript truthiness. */
  predicate Truthy(v: Value)
  {
    match v
    case Undefined => false
    case Null => false
    case Bool(b) => b
    case Num(n) => n != 0
    case Str(s) => s != ""
    case _ => true
  }

  /** `a || b` */
  function Or(a: Value, b: Value): Value
  {
    if Truthy(a) then a else b
  }

  predicate Nullish(v: Value)
  {
    v.Undefined? || v.Null?
  }

  /** `v.ok` (a `Response` answers whether its status is 2xx). */
  function OkOf(v: Value): Value
    requires !Nullish(v)
  {
    match v
    case Resp(r) => Bool(r.Ok())
    case Obj(ok, _, _, _, _, _) => ok
    case _ => Undefined
  }

  /** `v.headers` */
  function HeadersOf(v: Value): Value
    requires !Nullish(v)
  {
    match v
    case Resp(r) => HeaderList(r.headers)
    case Obj(_, h, _, _, _, _) => h
    case _ => Undefined
  }

  /** `v?.headers` */
  function OptionalHeaders(v: Value): (r: Value)
    ensures Nullish(v) ==> r == Undefined
  {
    if Nullish(v) then Undefined else HeadersOf(v)
  }

  /** `v.response` */
  function ResponseOf(v: Value): Value
    requires !Nullish(v)
  {
    match v
    case Obj(_, _, res, _, _, _) => res
    case _ => Undefined
  }

  /** `new Headers(init)`: `None` when the constructor throws. */
  function ToHeaders(init: Value): Option<Headers>
  {
    match init
    case Undefined => Some([])
    case HeaderList(h) => Some(h)
    case _ => None
  }

  /** How an evaluation ends: with a value or by throwing one. */
  datatype Completion<T> = Normal(value: T) | Abrupt(thrown: Value)

  /** How a hook call settles: synchronously (`Now`) or through a promise (`Later`). */
  datatype Settle = Now(c: Completion<Value>) | Later(c: Completion<Value>)

  /** The first argument of a hook: the request (for `upgrade`) or the peer,
      which may carry the request it was opened with. */
  datatype Subject =
    | RequestSubject(req: RequestId)
    | PeerSubject(peer: PeerId, request: Option<RequestId>)

  /** A user hook: its outcome for given arguments. */
  type Hook = (Subject, Value) -> Settle
  type HookSet = map<HookName, Hook>

  /** What a resolver gives back: a hook set, or nothing (`None`), now or later. */
  datatype Resolution = ResolvedNow(c: Completion<Option<HookSet>>) | ResolvedLater(c: Completion<Option<HookSet>>)
  type Resolver = Subject -> Resolution

  /** The calls the dispatcher makes, in order. */
  datatype Call =
    | GlobalCall(name: HookName, arg1: Subject, arg2: Value)
    | ResolveCall(target: Subject)
    | ResolvedCall(name: HookName, arg1: Subject, arg2: Value)

  datatype Dispatch = Dispatch(calls: seq<Call>, result: Completion<Value>)

  /** The context object attached to an upgrade request, shared with every later hook. */
  class Context {
    var entries: map<string, Value>

    constructor ()
      ensures entries == map[]
    {
      entries := map[];
    }
  }

  /** A request as it reaches `upgrade`, with its (possibly missing) `context` property. */
  class UpgradeRequest {
    const id: RequestId
    var context: Context?

    constructor (id: RequestId)
      ensures this.id == id && context == null
    {
      this.id := id;
      context := null;
    }
  }

  /** The result of `upgrade`. */
  datatype UpgradeResult = UpgradeResult(context: Context, upgradeHeaders: Option<Value>, endResponse: Option<Value>)

  /** `(arg1 as Peer).request || arg1`: the value handed to the resolver. */
  function ResolveTarget(arg1: Subject): (t: Subject)
    ensures arg1.RequestSubject? ==> t == arg1
    ensures arg1.PeerSubject? && arg1.request.Some? ==> t == RequestSubject(arg1.request.value)
    ensures arg1.PeerSubject? && arg1.request.None? ==> t == arg1
  {
    match arg1
    case PeerSubject(_, Some(r)) => RequestSubject(r)
    case _ => arg1
  }

  datatype AdapterHookable = AdapterHookable(hooks: HookSet, resolve: Option<Resolver>)
  {
    /** What the global hook gives: its own outcome, or `undefined` when there is none. */
    function GlobalOutcome(name: HookName, arg1: Subject, arg2: Value): Settle
    {
      if name in hooks then hooks[name](arg1, arg2) else Now(Normal(Undefined))
    }

    /** `callHook(name, arg1, arg2)`, with every promise awaited. The calls
        follow `CallOrder`; the outcome differs from the global hook's only
        when the resolver has run; a synchronous throw of the global hook
        stops everything else. `FastPath`, `FalsyResolverFallsBack` and
        `MergeRule` state the merge itself. */
    function CallHook(name: HookName, arg1: Subject, arg2: Value): (d: Dispatch)
      ensures CallOrder(d.calls, name, arg1, arg2, name in hooks)
      ensures d.result != GlobalOutcome(name, arg1, arg2).c ==> ResolveCall(ResolveTarget(arg1)) in d.calls
      ensures GlobalOutcome(name, arg1, arg2).Now? && GlobalOutcome(name, arg1, arg2).c.Abrupt? ==>
        d.result == GlobalOutcome(name, arg1, arg2).c && |d.calls| <= 1
    {
      var globalCalls := if name in hooks then [GlobalCall(name, arg1, arg2)] else [];
      var g := GlobalOutcome(name, arg1, arg2);
      if g.Now? && g.c.Abrupt? then
        // the global hook threw synchronously: nothing else runs
        Dispatch(globalCalls, g.c)
      else if resolve.None? then
        // fast path: the global hook's own outcome
        Dispatch(globalCalls, g.c)
      else
        var target := ResolveTarget(arg1);
        var calls := globalCalls + [ResolveCall(target)];
        var rs := resolve.value(target);
        if rs.ResolvedNow? && rs.c.Abrupt? then
          // the resolver threw synchronously
          Dispatch(calls, Abrupt(rs.c.thrown))
        else if rs.ResolvedNow? && rs.c.value.None? then
          // a falsy resolver result also takes the fast path
          Dispatch(calls, g.c)
        else if g.c.Abrupt? then
          Dispatch(calls, g.c)
        else if rs.c.Abrupt? then
          Dispatch(calls, Abrupt(rs.c.thrown))
        else
          var globalRes := g.c.value;
          var resolved := rs.c.value;
          if resolved.None? || name !in resolved.value then
            // `hook?.()` is undefined, so `undefined || globalRes`
            Dispatch(calls, Normal(globalRes))
          else
            var h := resolved.value[name](arg1, arg2);
            var all := calls + [ResolvedCall(name, arg1, arg2)];
            match h.c
            case Abrupt(e) => Dispatch(all, Abrupt(e))
            case Normal(hookRes) => Dispatch(all, Normal(Or(hookRes, globalRes)))
    }

    /** `upgrade(request)`: attaches a context once, runs the `upgrade` hook and classifies its outcome. */
    method Upgrade(request: UpgradeRequest) returns (out: Completion<UpgradeResult>)
      modifies request
      ensures old(request.context) != null ==> request.context == old(request.context)
      ensures old(request.context) == null ==> request.context != null && fresh(request.context) && request.context.entries == map[]
      ensures request.context != null
      ensures out == Interpret(CallHook(UpgradeHook, RequestSubject(request.id), Undefined).result, request.context)
    {
      var context := request.context;
      if context == null {
        context := new Context();
        request.context := context;
      }
      var d := CallHook(UpgradeHook, RequestSubject(request.id), Undefined);
      out := Interpret(d.result, context);
    }
  }

  /** How `upgrade` reads the merged hook outcome, or the value it threw. */
  function Interpret(c: Completion<Value>, context: Context): (r: Completion<UpgradeResult>)
    ensures r.Normal? ==> r.value.context == context
    ensures r.Normal? ==> r.value.endResponse.None? || r.value.upgradeHeaders.None?
    ensures r.Normal? && r.value.upgradeHeaders.Some? ==> Truthy(r.value.upgradeHeaders.value)
    ensures r.Abrupt? ==> c.Abrupt?
  {
    match c
    case Normal(res) =>
      if !Truthy(res) then Normal(UpgradeResult(context, None, None))
      else if OkOf(res) == Bool(false) then Normal(UpgradeResult(context, None, Some(res)))
      else if Truthy(HeadersOf(res)) then Normal(UpgradeResult(context, Some(HeadersOf(res)), None))
      else Normal(UpgradeResult(context, None, None))
    case Abrupt(error) =>
      if Nullish(error) then
        // reading `.response` of a thrown undefined or null throws in the catch block
        Abrupt(Error("TypeError"))
      else
        var errResponse := Or(ResponseOf(error), error);
        if errResponse.Resp? then Normal(UpgradeResult(context, None, Some(errResponse)))
        else Abrupt(error)
  }

  // ----- properties of callHook -----

  /** The only call orders `callHook` can produce: the global hook (when there
      is one), then the resolver, then the resolved hook; every hook gets the
      caller's arguments and the resolver gets `ResolveTarget(arg1)`. */
  predicate CallOrder(calls: seq<Call>, name: HookName, arg1: Subject, arg2: Value, hasGlobal: bool)
  {
    var g := if hasGlobal then [GlobalCall(name, arg1, arg2)] else [];
    || calls == g
    || calls == g + [ResolveCall(ResolveTarget(arg1))]
    || calls == g + [ResolveCall(ResolveTarget(arg1)), ResolvedCall(name, arg1, arg2)]
  }

  /** Without a resolver, `callHook` is the global hook's own outcome (and
      `undefined` when there is no global hook). */
  lemma FastPath(h: AdapterHookable, name: HookName, arg1: Subject, arg2: Value)
    requires h.resolve.None?
    ensures h.CallHook(name, arg1, arg2).result == h.GlobalOutcome(name, arg1, arg2).c
    ensures name !in h.hooks ==> h.CallHook(name, arg1, arg2).result == Normal(Undefined)
    ensures |h.CallHook(name, arg1, arg2).calls| <= 1
  {
  }

  /** A resolver that synchronously returns nothing falls back to the global outcome. */
  lemma FalsyResolverFallsBack(h: AdapterHookable, name: HookName, arg1: Subject, arg2: Value)
    requires h.resolve.Some?
    requires h.resolve.value(ResolveTarget(arg1)) == ResolvedNow(Normal(None))
    ensures h.CallHook(name, arg1, arg2).result == h.GlobalOutcome(name, arg1, arg2).c
  {
  }

  /** The merge rule: when the global hook and the resolver complete normally,
      a truthy resolved-hook result wins; a falsy one, or a missing resolved
      hook, falls back to the global result. */
  lemma MergeRule(h: AdapterHookable, name: HookName, arg1: Subject, arg2: Value, globalRes: Value, hs: HookSet)
    requires h.GlobalOutcome(name, arg1, arg2).c == Normal(globalRes)
    requires h.resolve.Some?
    requires h.resolve.value(ResolveTarget(arg1)).c == Normal(Some(hs))
    ensures name !in hs ==> h.CallHook(name, arg1, arg2).result == Normal(globalRes)
    ensures name in hs && hs[name](arg1, arg2).c.Normal? ==>
      var hookRes := hs[name](arg1, arg2).c.value;
      h.CallHook(name, arg1, arg2).result == Normal(if Truthy(hookRes) then hookRes else globalRes)
    ensures name in hs && hs[name](arg1, arg2).c.Abrupt? ==>
      h.CallHook(name, arg1, arg2).result == hs[name](arg1, arg2).c
  {
  }

  /** Global `upgrade` answers `{headers: {a: "1"}}`, the resolved one `{headers: {b: "2"}}`. */
  function HeadersReply(h: Headers): Value
  {
    Obj(Undefined, HeaderList(h), Undefined, Undefined, Undefined, None)
  }

  /** The resolved `upgrade` hook's headers win over the global ones; a resolved
      hook that returns nothing leaves the global headers in place. */
  lemma MergeScenario(arg1: Subject)
    ensures
      var global: HookSet := map[UpgradeHook := (s: Subject, v: Value) => Now(Normal(HeadersReply([("a", "1")])))];
      var resolvedB: HookSet := map[UpgradeHook := (s: Subject, v: Value) => Later(Normal(HeadersReply([("b", "2")])))];
      var resolvedNothing: HookSet := map[UpgradeHook := (s: Subject, v: Value) => Now(Normal(Undefined))];
      && AdapterHookable(global, Some((s: Subject) => ResolvedLater(Normal(Some(resolvedB))))).CallHook(UpgradeHook, arg1, Undefined).result
         == Normal(HeadersReply([("b", "2")]))
      && AdapterHookable(global, Some((s: Subject) => ResolvedNow(Normal(Some(resolvedNothing))))).CallHook(UpgradeHook, arg1, Undefined).result
         == Normal(HeadersReply([("a", "1")]))
  {
  }

  // ----- properties of upgrade -----

  /** A falsy hook result proceeds with no extra headers. */
  lemma FalsyResultProceeds(res: Value, context: Context)
    requires !Truthy(res)
    ensures Interpret(Normal(res), context) == Normal(UpgradeResult(context, None, None))
  {
  }

  /** `ok === false` rejects, and is checked before `headers`: a rejecting
      response with headers still ends the upgrade. */
  lemma RejectionBeforeHeaders(res: Value, context: Context)
    requires Truthy(res) && OkOf(res) == Bool(false)
    ensures Interpret(Normal(res), context) == Normal(UpgradeResult(context, None, Some(res)))
  {
  }

  /** Any non-2xx `Response` returned by the hook becomes the end response. */
  lemma ReturnedErrorResponseEnds(r: Response, context: Context)
    requires !r.Ok()
    ensures Interpret(Normal(Resp(r)), context) == Normal(UpgradeResult(context, None, Some(Resp(r))))
  {
  }

  /** A truthy `headers` on a non-rejecting result is passed on as the upgrade headers. */
  lemma HeadersPassedOn(res: Value, context: Context)
    requires Truthy(res) && OkOf(res) != Bool(false) && Truthy(HeadersOf(res))
    ensures Interpret(Normal(res), context) == Normal(UpgradeResult(context, Some(HeadersOf(res)), None))
  {
  }

  /** A thrown `Response`, or a thrown object whose `response` is one, ends the upgrade with that response. */
  lemma ThrownResponseEnds(r: Response, ok: Value, headers: Value, status: Value, statusText: Value, body: Option<seq<Bytes>>, context: Context)
    ensures Interpret(Abrupt(Resp(r)), context) == Normal(UpgradeResult(context, None, Some(Resp(r))))
    ensures Interpret(Abrupt(Obj(ok, headers, Resp(r), status, statusText, body)), context) == Normal(UpgradeResult(context, None, Some(Resp(r))))
  {
  }

  /** Any other thrown value is re-thrown unchanged. */
  lemma OtherThrowRethrown(error: Value, context: Context)
    requires !Nullish(error) && !error.Resp?
    requires !(error.Obj? && error.response.Resp?)
    ensures Interpret(Abrupt(error), context) == Abrupt(error)
  {
  }

  /** The 401 rejection: an `upgrade` hook that throws `{ response: 401 Unauthorized }`
      makes `upgrade` answer with that response, whatever the resolver is. */
  lemma UnauthorizedScenario(resolve: Option<Resolver>, request: RequestId, context: Context)
    ensures
      var unauthorized := Response(401, "Unauthorized", [("x-error", "unauthorized")], None);
      var thrower := (s: Subject, v: Value) => Now(Abrupt(Obj(Undefined, Undefined, Resp(unauthorized), Undefined, Undefined, None)));
      var h := AdapterHookable(map[UpgradeHook := thrower], resolve);
      Interpret(h.CallHook(UpgradeHook, RequestSubject(request), Undefined).result, context)
        == Normal(UpgradeResult(context, None, Some(Resp(unauthorized))))
  {
  }

  /** `defineHooks` returns its argument unchanged. */
  function DefineHooks(hooks: HookSet): (r: HookSet)
    ensures r == hooks
  {
    hooks
  }
}

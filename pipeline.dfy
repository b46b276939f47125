/** Handler-pipeline composition as the service's main function wires it up
    (api/builder-config/opt/expl/main.go).

    Each stage is an adapter from a handler to a wrapped handler. Stages are
    kept symbolic: wrapping a handler records which stage wrapped it, so the
    order of the layers can be read back with Layers. */
module Pipeline {

  /** The stages main layers around its handlers. */
  datatype Stage =
    | Timeout(duration: int)         // timeoutAdapter(s.HandlerTimeout())
    | ProxyHeaders                   // handlers.ProxyHeaders
    | ToHttpHandler                  // webhook.ToHttpHandler
    | RequiredToken(envKey: string)  // requiredTokenEnvAdapter(envKey)

  /** A base handler, named after the constructor that built it, with the
      stages wrapped around it. */
  datatype Handler = Base(name: string) | Wrapped(stage: Stage, inner: Handler)

  /** A function from a handler to a (possibly wrapped) handler. */
  type Adapter = Handler -> Handler

  /** compose(outer, inner): the adapter that applies inner first and outer to its result. */
  function Compose<A(!new), B, C>(outer: B -> C, inner: A -> B): (r: A -> C)
    ensures forall a {:trigger r(a)} :: r(a) == outer(inner(a))
  {
    a => outer(inner(a))
  }

  /** The adapter that leaves its argument as it is. */
  function Identity<A(!new)>(): (r: A -> A)
    ensures forall a :: r(a) == a
  {
    a => a
  }

  lemma ComposeAssociative<A(!new), B(!new), C, D>(f: C -> D, g: B -> C, h: A -> B)
    ensures forall a :: Compose(Compose(f, g), h)(a) == Compose(f, Compose(g, h))(a)
  {
  }

  lemma ComposeIdentity<A(!new), B(!new)>(f: A -> B)
    ensures forall a :: Compose(Identity(), f)(a) == f(a)
    ensures forall a :: Compose(f, Identity())(a) == f(a)
  {
  }

  /** The stages wrapped around the base handler, outermost first. */
  function Layers(h: Handler): seq<Stage>
  {
    match h
    case Base(_) => []
    case Wrapped(s, inner) => [s] + Layers(inner)
  }

  /** The name of the base handler at the core of h. */
  function BaseName(h: Handler): string
  {
    match h
    case Base(name) => name
    case Wrapped(_, inner) => BaseName(inner)
  }

  /** The adapter that wraps one stage around its argument. */
  function Wrap(s: Stage): Adapter
  {
    h => Wrapped(s, h)
  }

  /** h with the stages wrapped around it, the first stage outermost. */
  function Stack(stages: seq<Stage>, h: Handler): Handler
  {
    if stages == [] then h else Wrapped(stages[0], Stack(stages[1..], h))
  }

  /** The adapter that wraps a whole sequence of stages around its argument. */
  function Chain(stages: seq<Stage>): Adapter
  {
    h => Stack(stages, h)
  }

  /** A chain is the composition of one Wrap per stage: the empty chain is the identity,
      and a chain is its first stage composed with the rest. */
  lemma ChainIsComposition(stages: seq<Stage>, h: Handler)
    ensures stages == [] ==> Chain(stages)(h) == Identity()(h)
    ensures stages != [] ==> Chain(stages)(h) == Compose(Wrap(stages[0]), Chain(stages[1..]))(h)
  {
  }

  lemma StackCons(s: Stage, rest: seq<Stage>, h: Handler)
    ensures Stack([s] + rest, h) == Wrapped(s, Stack(rest, h))
  {
    assert ([s] + rest)[1..] == rest;
  }

  lemma ConsAppend<T>(s: seq<T>, t: seq<T>)
    requires s != []
    ensures [s[0]] + (s[1..] + t) == s + t
  {
    assert s == [s[0]] + s[1..];
  }

  /** A chain puts its stages, in order, outside the layers already there. */
  lemma {:induction false} ChainLayers(stages: seq<Stage>, h: Handler)
    ensures Layers(Chain(stages)(h)) == stages + Layers(h)
    ensures BaseName(Chain(stages)(h)) == BaseName(h)
  {
    StackLayers(stages, h);
  }

  lemma {:induction false} StackLayers(stages: seq<Stage>, h: Handler)
    ensures Layers(Stack(stages, h)) == stages + Layers(h)
    ensures BaseName(Stack(stages, h)) == BaseName(h)
  {
    if stages != [] {
      StackLayers(stages[1..], h);
      ConsAppend(stages, Layers(h));
    }
  }

  lemma {:induction false} StackAppend(xs: seq<Stage>, ys: seq<Stage>, h: Handler)
    ensures Stack(xs + ys, h) == Stack(xs, Stack(ys, h))
  {
    if xs == [] {
      assert xs + ys == ys;
    } else {
      assert (xs + ys)[0] == xs[0] && (xs + ys)[1..] == xs[1..] + ys;
      StackAppend(xs[1..], ys, h);
    }
  }

  /** Grouping does not matter: a chain of xs + ys is the composition of the two chains. */
  lemma {:induction false} ChainAppend(xs: seq<Stage>, ys: seq<Stage>, h: Handler)
    ensures Chain(xs + ys)(h) == Compose(Chain(xs), Chain(ys))(h)
  {
    StackAppend(xs, ys, h);
  }

  /** f wraps exactly the given stages, outermost first, around every handler, and keeps
      the handler at the core. */
  ghost predicate Prepends(f: Adapter, stages: seq<Stage>)
  {
    forall h :: Layers(f(h)) == stages + Layers(h) && BaseName(f(h)) == BaseName(h)
  }

  lemma AppendAssoc3<T>(a: seq<T>, b: seq<T>, c: seq<T>)
    ensures a + (b + c) == a + b + c
  {
  }

  /** Composing two adapters puts the outer one's stages outside the inner one's. */
  lemma ComposePrepends(outer: Adapter, inner: Adapter, outerStages: seq<Stage>, innerStages: seq<Stage>)
    requires Prepends(outer, outerStages) && Prepends(inner, innerStages)
    ensures Prepends(Compose(outer, inner), outerStages + innerStages)
  {
    var r := Compose(outer, inner);
    forall h
      ensures Layers(r(h)) == outerStages + innerStages + Layers(h) && BaseName(r(h)) == BaseName(h)
    {
      var x := inner(h);
      assert r(h) == outer(x);
      assert Layers(outer(x)) == outerStages + Layers(x);
      AppendAssoc3(outerStages, innerStages, Layers(h));
    }
  }

  /** timeoutAdapter: wraps exactly one timeout layer around its handler. */
  function TimeoutAdapter(timeout: int): (r: Adapter)
    ensures Prepends(r, [Timeout(timeout)])
  {
    Wrap(Timeout(timeout))
  }

  /** proxyHeaderAdapter: handlers.ProxyHeaders when enabled, otherwise a wrapper that
      returns its handler unchanged. */
  function ProxyHeaderAdapter(useProxyHeaders: bool): (r: Adapter)
    ensures Prepends(r, ProxyStages(useProxyHeaders))
    ensures !useProxyHeaders ==> forall h :: r(h) == h
  {
    if useProxyHeaders then Wrap(ProxyHeaders) else Identity()
  }

  /** webhook.ToHttpHandler: wraps exactly the conversion layer around its handler. */
  function ToHttpHandlerAdapter(): (r: Adapter)
    ensures Prepends(r, [ToHttpHandler])
  {
    Wrap(ToHttpHandler)
  }

  /** requiredTokenEnvAdapter: wraps exactly one shared-secret check, keyed by the
      environment variable envKey, around its handler. */
  function RequiredTokenEnvAdapter(envKey: string): (r: Adapter)
    ensures Prepends(r, [RequiredToken(envKey)])
  {
    Wrap(RequiredToken(envKey))
  }

  /** The stages the proxy-header adapter contributes. */
  function ProxyStages(useProxyHeaders: bool): seq<Stage>
  {
    if useProxyHeaders then [ProxyHeaders] else []
  }

  /** The stages of the web chain: the timeout outermost, then the proxy stages. */
  function WebStages(timeout: int, useProxyHeaders: bool): seq<Stage>
  {
    [Timeout(timeout)] + ProxyStages(useProxyHeaders)
  }

  /** The stages of a webhook route whose secret is read from envKey. */
  function WebhookStages(timeout: int, useProxyHeaders: bool, envKey: string): seq<Stage>
  {
    WebStages(timeout, useProxyHeaders) + [ToHttpHandler, RequiredToken(envKey)]
  }

  lemma ProxyHeaderAdapterIsChain(useProxyHeaders: bool, h: Handler)
    ensures ProxyHeaderAdapter(useProxyHeaders)(h) == Chain(ProxyStages(useProxyHeaders))(h)
  {
    if useProxyHeaders {
      assert Stack([ProxyHeaders], h) == Wrapped(ProxyHeaders, Stack([], h));
    }
  }

  /** webChain: every route's handler gets the web stages around it, and keeps its core. */
  function WebChain(timeout: int, useProxyHeaders: bool): (r: Adapter)
    ensures Prepends(r, WebStages(timeout, useProxyHeaders))
  {
    ComposePrepends(TimeoutAdapter(timeout), ProxyHeaderAdapter(useProxyHeaders), [Timeout(timeout)], ProxyStages(useProxyHeaders));
    Compose(TimeoutAdapter(timeout), ProxyHeaderAdapter(useProxyHeaders))
  }

  /** webhookChain: the web stages around the conversion from a webhook handler. */
  function WebhookChain(timeout: int, useProxyHeaders: bool): (r: Adapter)
    ensures Prepends(r, WebStages(timeout, useProxyHeaders) + [ToHttpHandler])
  {
    ComposePrepends(WebChain(timeout, useProxyHeaders), ToHttpHandlerAdapter(), WebStages(timeout, useProxyHeaders), [ToHttpHandler]);
    Compose(WebChain(timeout, useProxyHeaders), ToHttpHandlerAdapter())
  }

  /** The handler of a webhook route: the webhook stages for envKey around h, with h at the core. */
  function WebhookRoute(timeout: int, useProxyHeaders: bool, envKey: string, h: Handler): (r: Handler)
    ensures Layers(r) == WebhookStages(timeout, useProxyHeaders, envKey) + Layers(h)
    ensures BaseName(r) == BaseName(h)
  {
    var x := RequiredTokenEnvAdapter(envKey)(h);
    WebhookChainLayers(timeout, useProxyHeaders, x);
    WebhookStagesSplit(timeout, useProxyHeaders, envKey, Layers(h));
    Compose(WebhookChain(timeout, useProxyHeaders), RequiredTokenEnvAdapter(envKey))(h)
  }

  /** The webhook stages are the webhook chain's stages followed by the token check. */
  lemma WebhookStagesSplit(timeout: int, useProxyHeaders: bool, envKey: string, tail: seq<Stage>)
    ensures WebStages(timeout, useProxyHeaders) + [ToHttpHandler] + ([RequiredToken(envKey)] + tail)
         == WebhookStages(timeout, useProxyHeaders, envKey) + tail
  {
    AppendAssoc3(WebStages(timeout, useProxyHeaders) + [ToHttpHandler], [RequiredToken(envKey)], tail);
    assert WebStages(timeout, useProxyHeaders) + [ToHttpHandler] + [RequiredToken(envKey)]
        == WebhookStages(timeout, useProxyHeaders, envKey);
  }

  lemma WebhookChainLayers(timeout: int, useProxyHeaders: bool, x: Handler)
    ensures Layers(WebhookChain(timeout, useProxyHeaders)(x)) == WebStages(timeout, useProxyHeaders) + [ToHttpHandler] + Layers(x)
    ensures BaseName(WebhookChain(timeout, useProxyHeaders)(x)) == BaseName(x)
  {
  }

  /** A handler is determined by its layers and its base handler. */
  lemma {:induction false} StackOfLayers(h: Handler)
    ensures h == Stack(Layers(h), Base(BaseName(h)))
  {
    match h
    case Base(_) =>
    case Wrapped(s, inner) =>
      StackOfLayers(inner);
      StackCons(s, Layers(inner), Base(BaseName(inner)));
  }

  /** With proxy headers disabled the web chain behaves exactly as the timeout stage. */
  lemma WebChainWithoutProxyHeaders(timeout: int)
    ensures forall h :: WebChain(timeout, false)(h) == TimeoutAdapter(timeout)(h)
  {
  }

  /** The web chain is the chain of the web stages. */
  lemma WebChainStages(timeout: int, useProxyHeaders: bool, h: Handler)
    ensures WebChain(timeout, useProxyHeaders)(h) == Chain(WebStages(timeout, useProxyHeaders))(h)
  {
    var stages := WebStages(timeout, useProxyHeaders);
    assert stages[0] == Timeout(timeout) && stages[1..] == ProxyStages(useProxyHeaders);
    ProxyHeaderAdapterIsChain(useProxyHeaders, h);
  }

  /** A webhook route is timeout(proxy(ToHttpHandler(requiredToken(h)))): the chain of the
      webhook stages, timeout outermost, the token check directly around the handler. */
  lemma WebhookRouteStages(timeout: int, useProxyHeaders: bool, envKey: string, h: Handler)
    ensures WebhookRoute(timeout, useProxyHeaders, envKey, h) == Chain(WebhookStages(timeout, useProxyHeaders, envKey))(h)
  {
    var r := WebhookRoute(timeout, useProxyHeaders, envKey, h);
    var c := Chain(WebhookStages(timeout, useProxyHeaders, envKey))(h);
    ChainLayers(WebhookStages(timeout, useProxyHeaders, envKey), h);
    StackOfLayers(r);
    StackOfLayers(c);
    StackAppend(WebhookStages(timeout, useProxyHeaders, envKey), Layers(h), Base(BaseName(h)));
    StackOfLayers(h);
  }

  /** One route of the router: its path pattern and its handler. */
  datatype Route = Route(path: string, handler: Handler)

  /** r.Handle(path, compose(webhookChain, requiredTokenEnvAdapter(envKey))(handler)): the
      path served by the handler inside exactly the webhook stages for its key. */
  function WebhookEntry(timeout: int, useProxyHeaders: bool, path: string, envKey: string, handler: string): (r: Route)
    ensures r.path == path
    ensures Layers(r.handler) == WebhookStages(timeout, useProxyHeaders, envKey)
    ensures BaseName(r.handler) == handler
  {
    var hook := WebhookStages(timeout, useProxyHeaders, envKey);
    assert hook + Layers(Base(handler)) == hook;
    Route(path, WebhookRoute(timeout, useProxyHeaders, envKey, Base(handler)))
  }

  /** r.Handle(path, webChain(handler)): the path served by the handler inside exactly the
      web stages. */
  function PublicEntry(timeout: int, useProxyHeaders: bool, path: string, handler: string): (r: Route)
    ensures r.path == path
    ensures Layers(r.handler) == WebStages(timeout, useProxyHeaders)
    ensures BaseName(r.handler) == handler
  {
    var web := WebStages(timeout, useProxyHeaders);
    assert web + Layers(Base(handler)) == web;
    Route(path, WebChain(timeout, useProxyHeaders)(Base(handler)))
  }

  /** One webhook registration of main: the path, the environment variable holding its
      secret, and the constructor of its handler. */
  datatype WebhookEndpoint = WebhookEndpoint(path: string, envKey: string, handler: string)

  /** The webhook registrations of main, in order. */
  const WebhookEndpoints: seq<WebhookEndpoint> := [
    WebhookEndpoint("/api/add", "WEBHOOK_TOKEN_ADD", "webhook.NewAddHandler"),
    WebhookEndpoint("/api/expl", "WEBHOOK_TOKEN_EXPL", "webhook.NewExplHandler"),
    WebhookEndpoint("/api/del", "WEBHOOK_TOKEN_DEL", "webhook.NewDelHandler"),
    WebhookEndpoint("/api/find", "WEBHOOK_TOKEN_FIND", "webhook.NewFindHandler"),
    WebhookEndpoint("/api/top", "WEBHOOK_TOKEN_TOP", "webhook.NewTopHandler") ]

  /** The webhook routes main registers, in order (the handlers' own arguments are not modelled). */
  function WebhookRoutes(timeout: int, useProxyHeaders: bool): (routes: seq<Route>)
    ensures |routes| == |WebhookEndpoints|
    ensures forall i :: 0 <= i < |routes| ==>
      routes[i] == WebhookEntry(timeout, useProxyHeaders, WebhookEndpoints[i].path, WebhookEndpoints[i].envKey, WebhookEndpoints[i].handler)
  {
    seq(|WebhookEndpoints|, i requires 0 <= i < |WebhookEndpoints| =>
      WebhookEntry(timeout, useProxyHeaders, WebhookEndpoints[i].path, WebhookEndpoints[i].envKey, WebhookEndpoints[i].handler))
  }

  /** One public registration of main: the path pattern and the constructor of its handler. */
  datatype PublicEndpoint = PublicEndpoint(path: string, handler: string)

  /** The public redemption registrations of main, in order. */
  const PublicEndpoints: seq<PublicEndpoint> := [
    PublicEndpoint("/expl/{jwt:.*}", "web.NewExplHandler"),
    PublicEndpoint("/find/{jwt:.*}", "web.NewFindHandler") ]

  /** The public redemption routes main registers, in order. */
  function PublicRoutes(timeout: int, useProxyHeaders: bool): (routes: seq<Route>)
    ensures |routes| == |PublicEndpoints|
    ensures forall i :: 0 <= i < |routes| ==>
      routes[i] == PublicEntry(timeout, useProxyHeaders, PublicEndpoints[i].path, PublicEndpoints[i].handler)
  {
    seq(|PublicEndpoints|, i requires 0 <= i < |PublicEndpoints| =>
      PublicEntry(timeout, useProxyHeaders, PublicEndpoints[i].path, PublicEndpoints[i].handler))
  }

  /** The whole route table. */
  function Router(timeout: int, useProxyHeaders: bool): (routes: seq<Route>)
    ensures |routes| == |WebhookEndpoints| + |PublicEndpoints|
    ensures forall i :: 0 <= i < |WebhookEndpoints| ==>
      routes[i].path == WebhookEndpoints[i].path && BaseName(routes[i].handler) == WebhookEndpoints[i].handler
    ensures forall i :: |WebhookEndpoints| <= i < |routes| ==>
      && routes[i].path == PublicEndpoints[i - |WebhookEndpoints|].path
      && BaseName(routes[i].handler) == PublicEndpoints[i - |WebhookEndpoints|].handler
  {
    WebhookRoutes(timeout, useProxyHeaders) + PublicRoutes(timeout, useProxyHeaders)
  }

  /** The environment keys of the token checks among the stages, outermost first. */
  function TokenKeys(stages: seq<Stage>): seq<string>
  {
    if stages == [] then []
    else (if stages[0].RequiredToken? then [stages[0].envKey] else []) + TokenKeys(stages[1..])
  }

  lemma {:induction false} TokenKeysAppend(xs: seq<Stage>, ys: seq<Stage>)
    ensures TokenKeys(xs + ys) == TokenKeys(xs) + TokenKeys(ys)
  {
    if xs == [] {
      assert xs + ys == ys;
    } else {
      assert (xs + ys)[0] == xs[0] && (xs + ys)[1..] == xs[1..] + ys;
      TokenKeysAppend(xs[1..], ys);
    }
  }

  /** The web chain has no token check; a webhook route has exactly one, for its own key. */
  lemma TokenKeysOfStages(timeout: int, useProxyHeaders: bool, envKey: string)
    ensures TokenKeys(WebStages(timeout, useProxyHeaders)) == []
    ensures TokenKeys(WebhookStages(timeout, useProxyHeaders, envKey)) == [envKey]
  {
    var web := WebStages(timeout, useProxyHeaders);
    TokenKeysAppend([Timeout(timeout)], ProxyStages(useProxyHeaders));
    var inner := [ToHttpHandler, RequiredToken(envKey)];
    TokenKeysAppend(web, inner);
    assert inner[1..] == [RequiredToken(envKey)] && inner[1..][1..] == [];
  }

  /** Every webhook route is timeout, proxy and conversion around the token check of its own
      environment key, which sits directly around the handler; so it checks exactly that one secret. */
  lemma WebhookRoutesLayering(timeout: int, useProxyHeaders: bool)
    ensures forall i :: 0 <= i < |WebhookRoutes(timeout, useProxyHeaders)| ==>
      && Layers(WebhookRoutes(timeout, useProxyHeaders)[i].handler)
         == WebhookStages(timeout, useProxyHeaders, WebhookEndpoints[i].envKey)
      && TokenKeys(Layers(WebhookRoutes(timeout, useProxyHeaders)[i].handler)) == [WebhookEndpoints[i].envKey]
  {
    var routes := WebhookRoutes(timeout, useProxyHeaders);
    forall i | 0 <= i < |routes|
      ensures Layers(routes[i].handler) == WebhookStages(timeout, useProxyHeaders, WebhookEndpoints[i].envKey)
      ensures TokenKeys(WebhookStages(timeout, useProxyHeaders, WebhookEndpoints[i].envKey)) == [WebhookEndpoints[i].envKey]
    {
      TokenKeysOfStages(timeout, useProxyHeaders, WebhookEndpoints[i].envKey);
    }
  }

  /** No two webhook routes share a secret. */
  lemma WebhookTokenKeysDistinct()
    ensures forall i, j :: 0 <= i < j < |WebhookEndpoints| ==> WebhookEndpoints[i].envKey != WebhookEndpoints[j].envKey
  {
    var e := WebhookEndpoints;
    assert e[0].envKey[14] == 'A' && e[1].envKey[14] == 'E' && e[2].envKey[14] == 'D';
    assert e[3].envKey[14] == 'F' && e[4].envKey[14] == 'T';
  }

  /** No two webhook routes of the router check the same secret. */
  lemma WebhookRoutesDistinctKeys(timeout: int, useProxyHeaders: bool)
    ensures forall i, j :: 0 <= i < j < |WebhookRoutes(timeout, useProxyHeaders)| ==>
      TokenKeys(Layers(WebhookRoutes(timeout, useProxyHeaders)[i].handler))
      != TokenKeys(Layers(WebhookRoutes(timeout, useProxyHeaders)[j].handler))
  {
    var routes := WebhookRoutes(timeout, useProxyHeaders);
    WebhookRoutesLayering(timeout, useProxyHeaders);
    WebhookTokenKeysDistinct();
    forall i, j | 0 <= i < j < |routes|
      ensures TokenKeys(Layers(routes[i].handler)) != TokenKeys(Layers(routes[j].handler))
    {
      SingleKeysDiffer(TokenKeys(Layers(routes[i].handler)), TokenKeys(Layers(routes[j].handler)),
                       WebhookEndpoints[i].envKey, WebhookEndpoints[j].envKey);
    }
  }

  lemma SingleKeysDiffer(a: seq<string>, b: seq<string>, ka: string, kb: string)
    requires a == [ka] && b == [kb] && ka != kb
    ensures a != b
  {
    assert a[0] != b[0];
  }

  /** The public routes are wrapped by timeout and proxy only: no token check. */
  lemma PublicRoutesLayering(timeout: int, useProxyHeaders: bool)
    ensures forall i :: 0 <= i < |PublicRoutes(timeout, useProxyHeaders)| ==>
      && Layers(PublicRoutes(timeout, useProxyHeaders)[i].handler) == WebStages(timeout, useProxyHeaders)
      && TokenKeys(Layers(PublicRoutes(timeout, useProxyHeaders)[i].handler)) == []
  {
    TokenKeysOfStages(timeout, useProxyHeaders, "");
  }

  /** The stages of the i-th route of the router: the webhook stages for the webhook
      routes, the web chain alone for the public ones. */
  lemma RouterRouteLayers(timeout: int, useProxyHeaders: bool, i: nat)
    requires i < |Router(timeout, useProxyHeaders)|
    ensures |Router(timeout, useProxyHeaders)| == |WebhookEndpoints| + |PublicEndpoints|
    ensures i < |WebhookEndpoints| ==>
      Layers(Router(timeout, useProxyHeaders)[i].handler) == WebhookStages(timeout, useProxyHeaders, WebhookEndpoints[i].envKey)
    ensures i >= |WebhookEndpoints| ==>
      Layers(Router(timeout, useProxyHeaders)[i].handler) == WebStages(timeout, useProxyHeaders)
  {
    var hooks := WebhookRoutes(timeout, useProxyHeaders);
    var public := PublicRoutes(timeout, useProxyHeaders);
    if i < |hooks| {
      WebhookRoutesLayering(timeout, useProxyHeaders);
      assert Router(timeout, useProxyHeaders)[i] == hooks[i];
    } else {
      PublicRoutesLayering(timeout, useProxyHeaders);
      assert Router(timeout, useProxyHeaders)[i] == public[i - |hooks|];
    }
  }

  /** The i-th route of the router has the web chain outermost, and checks exactly one
      secret when it is a webhook route and none otherwise. */
  lemma RouterRouteChecks(timeout: int, useProxyHeaders: bool, i: nat)
    requires i < |Router(timeout, useProxyHeaders)|
    ensures |Layers(Router(timeout, useProxyHeaders)[i].handler)| >= |WebStages(timeout, useProxyHeaders)|
    ensures Layers(Router(timeout, useProxyHeaders)[i].handler)[..|WebStages(timeout, useProxyHeaders)|]
         == WebStages(timeout, useProxyHeaders)
    ensures |TokenKeys(Layers(Router(timeout, useProxyHeaders)[i].handler))| == 1 <==> i < |WebhookEndpoints|
  {
    var web := WebStages(timeout, useProxyHeaders);
    var stages := Layers(Router(timeout, useProxyHeaders)[i].handler);
    RouterRouteLayers(timeout, useProxyHeaders, i);
    if i < |WebhookEndpoints| {
      TokenKeysOfStages(timeout, useProxyHeaders, WebhookEndpoints[i].envKey);
      assert stages[..|web|] == web;
    } else {
      TokenKeysOfStages(timeout, useProxyHeaders, "");
      assert stages[..|web|] == web;
    }
  }

  /** Every route of the router has the web chain outermost; the webhook routes check
      exactly one secret, and the two public routes check none. */
  lemma RouterLayering(timeout: int, useProxyHeaders: bool)
    ensures |Router(timeout, useProxyHeaders)| == |WebhookEndpoints| + |PublicEndpoints|
    ensures forall i :: 0 <= i < |Router(timeout, useProxyHeaders)| ==>
      && |Layers(Router(timeout, useProxyHeaders)[i].handler)| >= |WebStages(timeout, useProxyHeaders)|
      && Layers(Router(timeout, useProxyHeaders)[i].handler)[..|WebStages(timeout, useProxyHeaders)|]
         == WebStages(timeout, useProxyHeaders)
      && (|TokenKeys(Layers(Router(timeout, useProxyHeaders)[i].handler))| == 1 <==> i < |WebhookEndpoints|)
  {
    forall i | 0 <= i < |Router(timeout, useProxyHeaders)|
      ensures |Layers(Router(timeout, useProxyHeaders)[i].handler)| >= |WebStages(timeout, useProxyHeaders)|
      ensures Layers(Router(timeout, useProxyHeaders)[i].handler)[..|WebStages(timeout, useProxyHeaders)|]
         == WebStages(timeout, useProxyHeaders)
      ensures |TokenKeys(Layers(Router(timeout, useProxyHeaders)[i].handler))| == 1 <==> i < |WebhookEndpoints|
    {
      RouterRouteChecks(timeout, useProxyHeaders, i);
    }
  }
}

/**
 Model of approutes.ts: route descriptors and the RoutesBuilder that appends them.
 A builder is an immutable record; each builder call is a function from the old
 record to the new one.
 */
module AppRoutes {
  import opened Wrappers
  import opened Functions

  /** Authorization category of a route. */
  datatype AuthAllow = Authorized | Public

  /** Authorization requirements of a route. */
  datatype Auth = Auth(allow: AuthAllow)

  /** The path a request must match; with `end` false the request path may continue past it. */
  datatype Path = Path(path: string, end: bool)

  /** The `path` argument of `add`: a bare string or a Path object. */
  datatype PathArg = PathString(s: string) | PathObject(p: Path)

  /** Options of a static route: the virtual path (`@app/…`, `@appspace/…`, `@avatars/…`) to serve. */
  datatype StaticOpts = StaticOpts(path: string)

  /** A host object the SDK only passes along: a Request, a URL, a respondWith function, a parameter value. */
  type HostValue = nat

  /** The `req` part of the host's per-request context; `rest` stands for its other fields. */
  datatype HostRequest = HostRequest(request: HostValue, respondWith: HostValue, rest: HostValue)

  /** The host's per-request context; `rest` stands for whatever else the host puts in it. */
  datatype HostContext = HostContext(
    req: HostRequest,
    params: map<string, HostValue>,
    url: HostValue,
    proxyId: Option<string>,
    rest: HostValue)

  /** The context an application handler receives: exactly these five fields. */
  datatype Context = Context(
    request: HostValue,
    respondWith: HostValue,
    params: map<string, HostValue>,
    url: HostValue,
    proxyId: Option<string>)

  /** The host-facing handler that `getHandler` builds around an application handler. */
  datatype InternalHandler = Wrapped(inner: FnRef)

  /** One call of an application handler with the context it was given. */
  datatype Invocation = Invocation(callee: FnRef, ctx: Context)

  /** A route as handed to the host; the constructor plays the part of the `type` field. */
  datatype AppRoute =
    | StaticRoute(httpMethod: string, path: Path, auth: Auth, opts: StaticOpts)
    | FunctionRoute(httpMethod: string, path: Path, auth: Auth, handler: InternalHandler, handlerName: string)

  /**
   The builder: the public `routes` array and the private marker map
   `#static_handlers`, keyed by the identity of the marker function.
   */
  datatype RoutesBuilder = RoutesBuilder(routes: seq<AppRoute>, staticHandlers: map<nat, StaticOpts>)

  /** A freshly constructed builder. */
  const NewRoutesBuilder := RoutesBuilder([], map[])

  /** The `name` JavaScript infers for the marker `const h = function() {}`. */
  const MarkerName := "h"

  /** A bare path string means "this path, and nothing after it". */
  function NormalizePath(path: PathArg): Path
  {
    match path
    case PathString(s) => Path(s, true)
    case PathObject(p) => p
  }

  /** The wrapper `getHandler` returns for `h`. */
  function GetHandler(h: FnRef): InternalHandler
  {
    Wrapped(h)
  }

  /** What the wrapper does when the host calls it: call the inner handler with the reduced context. */
  function Invoke(handler: InternalHandler, ctx: HostContext): (r: Invocation)
    ensures r.callee == handler.inner
    ensures r.ctx.request == ctx.req.request
    ensures r.ctx.respondWith == ctx.req.respondWith
    ensures r.ctx.params == ctx.params
    ensures r.ctx.url == ctx.url
    ensures r.ctx.proxyId == ctx.proxyId
  {
    var c := Context(ctx.req.request, ctx.req.respondWith, ctx.params, ctx.url, ctx.proxyId);
    Invocation(handler.inner, c)
  }

  /** The arguments of one `add` call. */
  datatype AddCall = AddCall(httpMethod: string, path: PathArg, auth: Auth, handler: FnRef)

  /**
   The route that `add` must append for `call`, given the marker map: method and
   auth copied, a bare path string normalised, a static route exactly when the
   handler is one of this builder's markers.
   */
  ghost predicate Describes(route: AppRoute, statics: map<nat, StaticOpts>, call: AddCall)
  {
    && route.httpMethod == call.httpMethod
    && route.auth == call.auth
    && (call.path.PathString? ==> route.path == Path(call.path.s, true))
    && (call.path.PathObject? ==> route.path == call.path.p)
    && (route.StaticRoute? <==> call.handler.id in statics)
    && (route.StaticRoute? ==> call.handler.id in statics && route.opts == statics[call.handler.id])
    && (route.FunctionRoute? ==> route.handler == Wrapped(call.handler) && route.handlerName == call.handler.name)
  }

  /** Every static route carries options some marker of the builder is bound to. */
  ghost predicate StaticRoutesFromMarkers(b: RoutesBuilder)
  {
    forall i :: 0 <= i < |b.routes| && b.routes[i].StaticRoute? ==> b.routes[i].opts in b.staticHandlers.Values
  }

  /** Every marker in the builder's map was allocated before `heap`. */
  ghost predicate Valid(heap: Heap, b: RoutesBuilder)
  {
    forall id :: id in b.staticHandlers ==> id < heap.next
  }

  /** `RoutesBuilder.add`: append one route describing the call, leaving everything else alone. */
  function Add(b: RoutesBuilder, httpMethod: string, path: PathArg, auth: Auth, handler: FnRef): (b': RoutesBuilder)
    ensures |b'.routes| == |b.routes| + 1
    ensures b'.routes[..|b.routes|] == b.routes
    ensures b'.staticHandlers == b.staticHandlers
    ensures Describes(b'.routes[|b.routes|], b.staticHandlers, AddCall(httpMethod, path, auth, handler))
    ensures StaticRoutesFromMarkers(b) ==> StaticRoutesFromMarkers(b')
  {
    var p := NormalizePath(path);
    var route :=
      if handler.id in b.staticHandlers then
        StaticRoute(httpMethod, p, auth, b.staticHandlers[handler.id])
      else
        FunctionRoute(httpMethod, p, auth, GetHandler(handler), handler.name);
    b.(routes := b.routes + [route])
  }

  /** A builder together with a marker it has just minted, and the allocator after minting. */
  datatype Minted = Minted(heap: Heap, builder: RoutesBuilder, handler: FnRef)

  /** `RoutesBuilder.staticFileHandler`: mint a new marker function and bind it to `opts`. */
  function StaticFileHandler(heap: Heap, b: RoutesBuilder, opts: StaticOpts): (r: Minted)
    ensures !Allocated(heap, r.handler) && Allocated(r.heap, r.handler)
    ensures r.handler.name == MarkerName
    ensures r.builder.routes == b.routes
    ensures r.builder.staticHandlers.Keys == b.staticHandlers.Keys + {r.handler.id}
    ensures r.handler.id in r.builder.staticHandlers && r.builder.staticHandlers[r.handler.id] == opts
    ensures Valid(heap, b) ==>
              && r.handler.id !in b.staticHandlers
              && |r.builder.staticHandlers| == |b.staticHandlers| + 1
              && (forall id :: id in b.staticHandlers ==> r.builder.staticHandlers[id] == b.staticHandlers[id])
              && Valid(r.heap, r.builder)
              && (StaticRoutesFromMarkers(b) ==> StaticRoutesFromMarkers(r.builder))
  {
    var a := Alloc(heap, MarkerName);
    Minted(a.heap, b.(staticHandlers := b.staticHandlers[a.fn.id := opts]), a.fn)
  }

  /** A sequence of `add` calls on one builder, in call order. */
  function AddAll(b: RoutesBuilder, calls: seq<AddCall>): RoutesBuilder
    decreases |calls|
  {
    if |calls| == 0 then b
    else AddAll(Add(b, calls[0].httpMethod, calls[0].path, calls[0].auth, calls[0].handler), calls[1..])
  }

  /** Route order is call order: the i-th call appends the i-th new route, and nothing earlier moves. */
  lemma {:induction false} AddAllInCallOrder(b: RoutesBuilder, calls: seq<AddCall>)
    ensures AddAll(b, calls).staticHandlers == b.staticHandlers
    ensures |AddAll(b, calls).routes| == |b.routes| + |calls|
    ensures AddAll(b, calls).routes[..|b.routes|] == b.routes
    ensures forall i :: 0 <= i < |calls| ==>
              Describes(AddAll(b, calls).routes[|b.routes| + i], b.staticHandlers, calls[i])
    decreases |calls|
  {
    if |calls| > 0 {
      var c := calls[0];
      var b1 := Add(b, c.httpMethod, c.path, c.auth, c.handler);
      AddAllInCallOrder(b1, calls[1..]);
      var r := AddAll(b, calls);
      assert r == AddAll(b1, calls[1..]);
      assert r.routes[..|b1.routes|] == b1.routes;
      assert r.routes[..|b.routes|] == b1.routes[..|b.routes|];
      forall i | 0 <= i < |calls|
        ensures Describes(r.routes[|b.routes| + i], b.staticHandlers, calls[i])
      {
        if i == 0 {
          assert r.routes[|b.routes|] == b1.routes[|b.routes|];
        } else {
          assert calls[1..][i - 1] == calls[i];
          assert r.routes[|b.routes| + i] == r.routes[|b1.routes| + (i - 1)];
        }
      }
    }
  }

  /** A marker minted by this builder and then passed to `add` yields a static route with its options. */
  lemma OwnMarkerGivesStaticRoute(heap: Heap, b: RoutesBuilder, opts: StaticOpts, httpMethod: string, path: PathArg, auth: Auth)
    ensures var m := StaticFileHandler(heap, b, opts);
            var b' := Add(m.builder, httpMethod, path, auth, m.handler);
            && |b'.routes| == |b.routes| + 1
            && b'.routes[|b.routes|] == StaticRoute(httpMethod, NormalizePath(path), auth, opts)
  {
  }

  /**
   A marker minted by a different builder (sharing the allocator) is an ordinary
   function to this one: `add` yields a function route named after the marker.
   */
  lemma ForeignMarkerGivesFunctionRoute(heap: Heap, other: RoutesBuilder, b: RoutesBuilder, opts: StaticOpts,
                                        httpMethod: string, path: PathArg, auth: Auth)
    requires Valid(heap, b)
    ensures var m := StaticFileHandler(heap, other, opts);
            var b' := Add(b, httpMethod, path, auth, m.handler);
            && b'.routes[|b.routes|].FunctionRoute?
            && b'.routes[|b.routes|].handler == Wrapped(m.handler)
            && b'.routes[|b.routes|].handlerName == MarkerName
  {
  }

  /** A builder exists before any marker is minted, so a fresh one is valid under every allocator state. */
  lemma NewBuilderValid(heap: Heap)
    ensures Valid(heap, NewRoutesBuilder)
  {
  }

  /**
   One step of a builder session: a call on this builder, or the creation of a
   function object somewhere else (another builder's marker, an application
   handler), which only advances the shared allocator.
   */
  datatype BuilderCall = Mint(opts: StaticOpts) | AddRoute(call: AddCall) | AllocElsewhere(name: string)

  /** The shared allocator and this builder. */
  datatype Session = Session(heap: Heap, builder: RoutesBuilder)

  /** The effect of one session step. */
  function Step(s: Session, c: BuilderCall): Session
  {
    match c
    case Mint(opts) =>
      var m := StaticFileHandler(s.heap, s.builder, opts);
      Session(m.heap, m.builder)
    case AddRoute(a) => Session(s.heap, Add(s.builder, a.httpMethod, a.path, a.auth, a.handler))
    case AllocElsewhere(name) => Session(Alloc(s.heap, name).heap, s.builder)
  }

  /** A session: the steps in call order. */
  function Run(s: Session, calls: seq<BuilderCall>): Session
    decreases |calls|
  {
    if |calls| == 0 then s else Step(Run(s, calls[..|calls| - 1]), calls[|calls| - 1])
  }

  /** The function object created at step `j` of a session, by a mint or elsewhere. */
  function CreatedAt(s: Session, calls: seq<BuilderCall>, j: nat): FnRef
    requires j < |calls| && !calls[j].AddRoute?
  {
    var before := Run(s, calls[..j]);
    if calls[j].Mint? then StaticFileHandler(before.heap, before.builder, calls[j].opts).handler
    else Alloc(before.heap, calls[j].name).fn
  }

  /**
   How a session state can evolve: the allocator only advances, routes are only
   appended, and for a valid builder, bindings are never lost and new markers
   are younger than everything allocated before.
   */
  ghost predicate Grows(s1: Session, s2: Session)
  {
    && s1.heap.next <= s2.heap.next
    && |s1.builder.routes| <= |s2.builder.routes|
    && s2.builder.routes[..|s1.builder.routes|] == s1.builder.routes
    && (Valid(s1.heap, s1.builder) ==>
          && Valid(s2.heap, s2.builder)
          && (forall id :: id in s1.builder.staticHandlers ==>
                id in s2.builder.staticHandlers && s2.builder.staticHandlers[id] == s1.builder.staticHandlers[id])
          && (forall id :: id in s2.builder.staticHandlers ==>
                id in s1.builder.staticHandlers || s1.heap.next <= id))
  }

  lemma StepGrows(s: Session, c: BuilderCall)
    ensures Grows(s, Step(s, c))
  {
  }

  lemma GrowsTransitive(s1: Session, s2: Session, s3: Session)
    requires Grows(s1, s2) && Grows(s2, s3)
    ensures Grows(s1, s3)
  {
  }

  lemma RunPrefixStep(s: Session, calls: seq<BuilderCall>, k: nat)
    requires k < |calls|
    ensures Run(s, calls[..k + 1]) == Step(Run(s, calls[..k]), calls[k])
  {
    assert calls[..k + 1][..k] == calls[..k];
  }

  /** Any later point of a session has grown from any earlier one. */
  lemma {:induction false} RunGrows(s: Session, calls: seq<BuilderCall>, k: nat, m: nat)
    requires k <= m <= |calls|
    ensures Grows(Run(s, calls[..k]), Run(s, calls[..m]))
    decreases m
  {
    if k == m {
      var t := Run(s, calls[..k]);
      assert t.builder.routes[..|t.builder.routes|] == t.builder.routes;
    } else {
      RunGrows(s, calls, k, m - 1);
      RunPrefixStep(s, calls, m - 1);
      StepGrows(Run(s, calls[..m - 1]), calls[m - 1]);
      GrowsTransitive(Run(s, calls[..k]), Run(s, calls[..m - 1]), Run(s, calls[..m]));
    }
  }

  /**
   A builder session with `staticFileHandler` and `add` calls mixed, and
   function objects created elsewhere in between: routes are only ever
   appended, the builder stays valid, and each `add` appends the route that
   describes it against the marker map as it stands at that moment.
   */
  lemma SessionInCallOrder(s: Session, calls: seq<BuilderCall>)
    ensures |s.builder.routes| <= |Run(s, calls).builder.routes|
    ensures Run(s, calls).builder.routes[..|s.builder.routes|] == s.builder.routes
    ensures Valid(s.heap, s.builder) ==> Valid(Run(s, calls).heap, Run(s, calls).builder)
    ensures forall k :: 0 <= k < |calls| && calls[k].AddRoute? ==>
              && |Run(s, calls[..k]).builder.routes| < |Run(s, calls).builder.routes|
              && Describes(Run(s, calls).builder.routes[|Run(s, calls[..k]).builder.routes|],
                           Run(s, calls[..k]).builder.staticHandlers, calls[k].call)
  {
    var n := |calls|;
    assert calls[..n] == calls;
    assert calls[..0] == [];
    RunGrows(s, calls, 0, n);
    forall k | 0 <= k < n && calls[k].AddRoute?
      ensures |Run(s, calls[..k]).builder.routes| < |Run(s, calls).builder.routes|
      ensures Describes(Run(s, calls).builder.routes[|Run(s, calls[..k]).builder.routes|],
                        Run(s, calls[..k]).builder.staticHandlers, calls[k].call)
    {
      RunPrefixStep(s, calls, k);
      RunGrows(s, calls, k + 1, n);
    }
  }

  /**
   In a session on a valid builder, adding a marker minted at an earlier step
   gives a static route carrying the options of that step, however many calls
   came in between.
   */
  lemma SessionOwnMarkerGivesStaticRoute(s: Session, calls: seq<BuilderCall>, j: nat, k: nat)
    requires Valid(s.heap, s.builder)
    requires j < k < |calls| && calls[j].Mint? && calls[k].AddRoute?
    requires calls[k].call.handler == CreatedAt(s, calls, j)
    ensures |Run(s, calls[..k]).builder.routes| < |Run(s, calls).builder.routes|
    ensures Run(s, calls).builder.routes[|Run(s, calls[..k]).builder.routes|]
              == StaticRoute(calls[k].call.httpMethod, NormalizePath(calls[k].call.path), calls[k].call.auth, calls[j].opts)
  {
    assert calls[..|calls|] == calls;
    assert calls[..0] == [];
    var m := CreatedAt(s, calls, j);
    var sj := Run(s, calls[..j]);
    var sk := Run(s, calls[..k]);
    var sk1 := Run(s, calls[..k + 1]);
    var c := calls[k].call;
    RunGrows(s, calls, 0, j);
    assert Valid(sj.heap, sj.builder);
    RunPrefixStep(s, calls, j);
    var sj1 := Run(s, calls[..j + 1]);
    assert sj1 == Step(sj, calls[j]);
    assert m.id in sj1.builder.staticHandlers && sj1.builder.staticHandlers[m.id] == calls[j].opts;
    RunGrows(s, calls, j + 1, k);
    assert sk.builder.staticHandlers[m.id] == calls[j].opts;
    RunPrefixStep(s, calls, k);
    assert Describes(sk1.builder.routes[|sk.builder.routes|], sk.builder.staticHandlers, c);
    RunGrows(s, calls, k + 1, |calls|);
    assert Run(s, calls).builder.routes[|sk.builder.routes|] == sk1.builder.routes[|sk.builder.routes|];
  }

  /**
   In a session on a valid builder, adding a function object created elsewhere
   at an earlier step (another builder's marker, say) gives a function route.
   */
  lemma SessionForeignFunctionGivesFunctionRoute(s: Session, calls: seq<BuilderCall>, j: nat, k: nat)
    requires Valid(s.heap, s.builder)
    requires j < k < |calls| && calls[j].AllocElsewhere? && calls[k].AddRoute?
    requires calls[k].call.handler == CreatedAt(s, calls, j)
    ensures |Run(s, calls[..k]).builder.routes| < |Run(s, calls).builder.routes|
    ensures Run(s, calls).builder.routes[|Run(s, calls[..k]).builder.routes|].FunctionRoute?
  {
    assert calls[..|calls|] == calls;
    assert calls[..0] == [];
    var e := CreatedAt(s, calls, j);
    var sj := Run(s, calls[..j]);
    var sk := Run(s, calls[..k]);
    var sk1 := Run(s, calls[..k + 1]);
    var c := calls[k].call;
    RunGrows(s, calls, 0, j);
    assert Valid(sj.heap, sj.builder);
    assert e.id == sj.heap.next && e.id !in sj.builder.staticHandlers;
    RunPrefixStep(s, calls, j);
    var sj1 := Run(s, calls[..j + 1]);
    assert sj1 == Step(sj, calls[j]);
    assert sj1.builder == sj.builder && sj1.heap.next == e.id + 1;
    RunGrows(s, calls, j + 1, k);
    assert e.id !in sk.builder.staticHandlers;
    RunPrefixStep(s, calls, k);
    assert Describes(sk1.builder.routes[|sk.builder.routes|], sk.builder.staticHandlers, c);
    RunGrows(s, calls, k + 1, |calls|);
    assert Run(s, calls).builder.routes[|sk.builder.routes|] == sk1.builder.routes[|sk.builder.routes|];
  }
}

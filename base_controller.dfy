/** `BaseController`: owns the Express router, binds a table of routes to it,
    and writes JSON answers. */
module BaseController {
  import opened Wrappers
  import opened Json
  import opened Http
  import opened Dto
  import ValidateMiddleware
  import AuthGuard
  import RoleGuard

  datatype HttpMethod = Get | Post | Patch | Put | Delete

  /** The middleware instances routes carry. */
  datatype Middleware =
    | UsesValidate(v: ValidateMiddleware.ValidateMiddleware)
    | UsesAuthGuard
    | UsesRoleGuard(g: RoleGuard.RoleGuard)

  /** `ControllerRouteInterface`, over the type `H` of handlers. */
  datatype ControllerRoute<H> = ControllerRoute(path: string, verb: HttpMethod, func: H, middlewares: Option<seq<Middleware>>)

  /** One function in an Express route's chain. */
  datatype Stage<H> = Mw(m: Middleware) | Handle(h: H)

  /** `router[method](path, pipeline)`: what the router holds for one route. */
  datatype Binding<H> = Binding(verb: HttpMethod, path: string, pipeline: seq<Stage<H>>)

  /** `middlewares ? [...middlewares, handler] : handler`: the middlewares in
      their declared order, then the handler last. */
  function Pipeline<H>(r: ControllerRoute<H>): (p: seq<Stage<H>>)
    ensures |p| >= 1 && p[|p| - 1] == Handle(r.func)
    ensures r.middlewares.None? ==> p == [Handle(r.func)]
    ensures r.middlewares.Some? ==>
      |p| == |r.middlewares.value| + 1 &&
      forall k :: 0 <= k < |r.middlewares.value| ==> p[k] == Mw(r.middlewares.value[k])
  {
    match r.middlewares
    case None => [Handle(r.func)]
    case Some(ms) => Stages(ms) + [Handle(r.func)]
  }

  function Stages<H>(ms: seq<Middleware>): (p: seq<Stage<H>>)
    ensures |p| == |ms| && forall k :: 0 <= k < |ms| ==> p[k] == Mw(ms[k])
  {
    seq(|ms|, k requires 0 <= k < |ms| => Mw(ms[k]))
  }

  function BindingOf<H>(r: ControllerRoute<H>): Binding<H> {
    Binding(r.verb, r.path, Pipeline(r))
  }

  /** What `bindRoutes` registers for a table of routes: one binding per
      route, in table order. */
  function Bindings<H>(routes: seq<ControllerRoute<H>>): (bs: seq<Binding<H>>)
    ensures |bs| == |routes| && forall k :: 0 <= k < |routes| ==> bs[k] == BindingOf(routes[k])
    decreases |routes|
  {
    if routes == [] then []
    else Bindings(routes[..|routes| - 1]) + [BindingOf(routes[|routes| - 1])]
  }

  lemma BindingsSnoc<H>(routes: seq<ControllerRoute<H>>, i: nat)
    requires i < |routes|
    ensures Bindings(routes[..i + 1]) == Bindings(routes[..i]) + [BindingOf(routes[i])]
  {
    assert routes[..i + 1][..i] == routes[..i];
  }

  /** `Router()`: the routes registered on it, in registration order. */
  class Router<H> {
    var bindings: seq<Binding<H>>

    constructor()
      ensures bindings == []
    {
      bindings := [];
    }

    /** `router[verb](path, pipeline)`. */
    method Register(verb: HttpMethod, path: string, pipeline: seq<Stage<H>>)
      modifies this
      ensures bindings == old(bindings) + [Binding(verb, path, pipeline)]
    {
      bindings := bindings + [Binding(verb, path, pipeline)];
    }
  }

  class BaseController<H> {
    const router: Router<H>

    constructor()
      ensures fresh(router) && router.bindings == []
    {
      router := new Router<H>();
    }

    /** `bindRoutes(prefix, routes)`: registers each route's pipeline under its
        method and path, in table order. The prefix only reaches the log. */
    method BindRoutes(prefix: string, routes: seq<ControllerRoute<H>>)
      modifies router
      ensures router.bindings == old(router.bindings) + Bindings(routes)
    {
      var i := 0;
      while i < |routes|
        invariant 0 <= i <= |routes|
        invariant router.bindings == old(router.bindings) + Bindings(routes[..i])
      {
        var route := routes[i];
        var pipeline := Pipeline(route);
        router.Register(route.verb, route.path, pipeline);
        BindingsSnoc(routes, i);
        i := i + 1;
      }
      assert routes[..i] == routes;
    }
  }

  /** `send(res, code, message)`: a JSON answer with that status. */
  function Send(code: int, message: Json): (r: Response)
    ensures r.status == code && r.contentType == ApplicationJson && r.body == JsonBody(message)
  {
    JsonResponse(code, message)
  }

  /** `ok(res, message)`. */
  function OkResponse(message: Json): (r: Response)
    ensures r.status == 200 && r.body == JsonBody(message)
  {
    Send(200, message)
  }

  /** `created(res)`: `sendStatus(201)` answers with the status text. */
  function Created(): (r: Response)
    ensures r.status == 201 && r.body == TextBody("Created")
  {
    Response(201, "text/plain", TextBody("Created"))
  }

  // ---- running a route's middlewares ------------------------------------

  /** The step one middleware takes, given the request's `authUser` and body. */
  function MiddlewareStep(m: Middleware, authUser: Option<RequestUser>, body: Json, isEmail: string -> bool): Step {
    match m
    case UsesValidate(v) => ValidateMiddleware.ValidateStep(Validate(SchemaOf(v.classToValidate), body, isEmail))
    case UsesAuthGuard => AuthGuard.Exec(authUser)
    case UsesRoleGuard(g) => g.Exec(authUser)
  }

  /** Express walking a route's middlewares in order: the first step that
      is not `next()`, or `Continue` when every middleware calls `next()`
      and the handler runs. */
  function FirstStop(steps: seq<Step>): Step {
    if steps == [] then Continue
    else if steps[0] != Continue then steps[0]
    else FirstStop(steps[1..])
  }

  /** The handler runs exactly when every middleware calls `next()`;
      otherwise the answer is that of the first middleware that does not. */
  lemma {:induction false} FirstStopSpec(steps: seq<Step>)
    ensures FirstStop(steps) == Continue <==> forall k :: 0 <= k < |steps| ==> steps[k] == Continue
    ensures FirstStop(steps) != Continue ==>
      exists k :: 0 <= k < |steps| && steps[k] == FirstStop(steps) && forall j :: 0 <= j < k ==> steps[j] == Continue
  {
    if steps != [] && steps[0] == Continue {
      FirstStopSpec(steps[1..]);
      assert forall k :: 1 <= k < |steps| ==> steps[k] == steps[1..][k - 1];
      if FirstStop(steps) != Continue {
        var k :| 0 <= k < |steps[1..]| && steps[1..][k] == FirstStop(steps[1..]) &&
          forall j :: 0 <= j < k ==> steps[1..][j] == Continue;
        assert steps[k + 1] == FirstStop(steps);
      }
    }
  }

  /** What each middleware of a route would do with this request. */
  function Steps(ms: seq<Middleware>, authUser: Option<RequestUser>, body: Json, isEmail: string -> bool): (r: seq<Step>)
    ensures |r| == |ms| && forall k :: 0 <= k < |ms| ==> r[k] == MiddlewareStep(ms[k], authUser, body, isEmail)
  {
    seq(|ms|, k requires 0 <= k < |ms| => MiddlewareStep(ms[k], authUser, body, isEmail))
  }

  /** The outcome of a route's middlewares for one request. */
  function Gate(ms: seq<Middleware>, authUser: Option<RequestUser>, body: Json, isEmail: string -> bool): Step {
    FirstStop(Steps(ms, authUser, body, isEmail))
  }

  /** A route with two middlewares: the first one's answer when it does not
      call `next()`, the second one's otherwise. */
  lemma TwoStepGate(ms: seq<Middleware>, authUser: Option<RequestUser>, body: Json, isEmail: string -> bool)
    requires |ms| == 2
    ensures var first := MiddlewareStep(ms[0], authUser, body, isEmail);
      Gate(ms, authUser, body, isEmail) == if first != Continue then first else MiddlewareStep(ms[1], authUser, body, isEmail)
  {
    var steps := Steps(ms, authUser, body, isEmail);
    assert steps[1..] == [steps[1]] && steps[1..][1..] == [];
    assert FirstStop(steps[1..]) == steps[1];
  }
}

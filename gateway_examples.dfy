/** The scenarios of test/gateway.test.ts, run against the gateway model, and
    the handler-resolution check of src/libs/gateway.ts:131-134 as written. */
module GatewayExamples {
  import opened Wrappers
  import opened Http
  import opened Gateway

  lemma UsersTemplateCompiles()
    ensures Compile("/users/:id").pattern == Literal("/users/") + [Group("id")]
    ensures Compile("/users/:id").params == ["id"]
    ensures Compile("/users/:id").source == "^/users/([^/]+)$"
  {
    assert "/users/:id" == "/users/" + ":" + "id";
    TemplateWithTrailingParam("/users/", "id");
    assert "^" + "/users/" + "([^/]+)" + "$" == "^/users/([^/]+)$";
  }

  /** `/users/:id` takes exactly one non-empty segment after `/users/`. */
  lemma UsersCaptures()
    ensures Captures(Compile("/users/:id").pattern, "/users/123") == Some(["123"])
    ensures Captures(Compile("/users/:id").pattern, "/users") == None
    ensures Captures(Compile("/users/:id").pattern, "/users/") == None
  {
    UsersTemplateCompiles();
    UsersCapturesId();
    UsersCapturesShort("/users");
    UsersCapturesShort("/users/");
  }

  lemma UsersCapturesId()
    ensures Captures(Literal("/users/") + [Group("id")], "/users/123") == Some(["123"])
  {
    CapturesLiteralPrefix("/users/", [Group("id")], "/users/123");
    assert "/users/123"[..7] == "/users/" && "/users/123"[7..] == "123";
    SingleGroupCaptures("id", "123");
  }

  /** A path that is at most the literal prefix leaves the group nothing. */
  lemma UsersCapturesShort(path: string)
    requires path == "/users" || path == "/users/"
    ensures Captures(Literal("/users/") + [Group("id")], path) == None
  {
    CapturesLiteralPrefix("/users/", [Group("id")], path);
    if path == "/users/" {
      assert path[..7] == "/users/" && path[7..] == "";
      SingleGroupCaptures("id", "");
    }
  }

  /** A gateway with no global middleware and one route. */
  lemma OneRoute(r: Route, req: Request, ctx: Ctx)
    requires WellCompiled(r.path)
    ensures Handle([], [r], req, ctx) == if RouteAccepts(r, req) then Dispatch(r, req, ctx) else NotFoundResponse
  {
  }

  /** A route without middleware whose pattern yields one capture. */
  lemma DispatchOneParam(r: Route, h: RouteHandler, req: Request, ctx: Ctx, name: string, value: string)
    requires WellCompiled(r.path) && r.middlewares == [] && r.handler == Ready(h)
    requires r.path.params == [name] && Captures(r.path.pattern, req.pathname) == Some([value])
    ensures Dispatch(r, req, ctx) == ResponseOf(h(req, ctx.(params := map[name := value])))
  {
    assert [name][..0] == [] && [value][..0] == [];
    assert ZipParams([name], [value]) == map[name := value];
  }

  /** The handler of test/gateway.test.ts:74-77. */
  function UserIdHandler(req: Request, c: Ctx): Outcome
  {
    Returned(Response(200, Text("User ID: " + (if "id" in c.params then c.params["id"] else "undefined")), None))
  }

  lemma UserIdHandlerAnswers(req: Request, c: Ctx)
    requires c.params == map["id" := "123"]
    ensures ResponseOf(UserIdHandler(req, c)) == Response(200, Text("User ID: 123"), None)
  {
    assert "id" in c.params && c.params["id"] == "123";
    assert "User ID: " + "123" == "User ID: 123";
  }

  lemma UserRouteDispatch(r: Route, req: Request, ctx: Ctx)
    requires r == Route("GET", Compile("/users/:id"), Ready(UserIdHandler), [])
    requires req == Request("GET", "/users/123", map[])
    ensures Dispatch(r, req, ctx) == Response(200, Text("User ID: 123"), None)
  {
    UsersCaptures();
    UsersTemplateCompiles();
    DispatchOneParam(r, UserIdHandler, req, ctx, "id", "123");
    UserIdHandlerAnswers(req, ctx.(params := map["id" := "123"]));
  }

  const NoContext := Ctx(map[], map[])

  /** test/gateway.test.ts:71-87: the path parameter reaches the handler;
      a path the pattern refuses is answered with 404. */
  method UserRouteAnswers() returns (resp: Response, missing: Response)
    ensures resp == Response(200, Text("User ID: 123"), None)
    ensures missing == NotFoundResponse
  {
    var g := new ApiGateway();
    g.On("GET", "/users/:id", UserIdHandler);
    var r := Route("GET", Compile("/users/:id"), Ready(UserIdHandler), []);
    assert g.routes == [r] && g.middlewares == [];
    var req := Request("GET", "/users/123", map[]);
    resp := g.HandleRequest(req, NoContext);
    UsersCaptures();
    OneRoute(r, req, NoContext);
    UserRouteDispatch(r, req, NoContext);
    var other := Request("GET", "/users", map[]);
    missing := g.HandleRequest(other, NoContext);
    OneRoute(r, other, NoContext);
  }

  /** The middleware of test/gateway.test.ts:92-94. */
  function GreetingMiddleware(req: Request, c: Ctx): Step
  {
    Next(c.(data := c.data["data" := "Hello, World!"]))
  }

  /** The handler of test/gateway.test.ts:98-100. */
  function GreetingHandler(req: Request, c: Ctx): Outcome
  {
    Returned(Response(200, Text(if "data" in c.data then c.data["data"] else "undefined"), None))
  }

  lemma GreetingCompiles()
    ensures Compile("/greeting").pattern == Literal("/greeting")
    ensures Compile("/greeting").params == []
    ensures Captures(Compile("/greeting").pattern, "/greeting") == Some([])
  {
    assert "/greeting" + "" == "/greeting";
    TokenizeLiteralPrefix("/greeting", "");
    assert Literal("/greeting") + [] == Literal("/greeting");
    LiteralRenders("/greeting");
    CapturesLiteralPrefix("/greeting", [], "/greeting");
    assert "/greeting"[..9] == "/greeting" && "/greeting"[9..] == "";
  }

  lemma GreetingHandled(mws: seq<Middleware>, r: Route, req: Request, ctx: Ctx)
    requires mws == [GreetingMiddleware]
    requires r == Route("GET", Compile("/greeting"), Ready(GreetingHandler), [])
    requires req == Request("GET", "/greeting", map[]) && ctx == NoContext
    ensures Handle(mws, [r], req, ctx) == Response(200, Text("Hello, World!"), None)
  {
    GreetingCompiles();
    var c := ctx.(data := map["data" := "Hello, World!"]);
    assert RunChain(mws, req, ctx) == Continue(c) by {
      assert mws[1..] == [];
    }
    assert RouteParams(r, req.pathname) == map[];
  }

  /** test/gateway.test.ts:89-110: what a global middleware writes into the
      context is what the handler reads. The test registers its handler as an
      `async` function, so the router as written answers this request with
      500, like the user route (AsyncHandlerAnswersInternalError); the test
      is replayed here on the corrected router, where a handler registered
      with `on` is called once. */
  method MiddlewareWritesReachHandler() returns (resp: Response)
    ensures resp == Response(200, Text("Hello, World!"), None)
  {
    var g := new ApiGateway();
    g.Use(GreetingMiddleware);
    g.On("GET", "/greeting", GreetingHandler);
    var r := Route("GET", Compile("/greeting"), Ready(GreetingHandler), []);
    assert g.routes == [r] && g.middlewares == [GreetingMiddleware];
    var req := Request("GET", "/greeting", map[]);
    resp := g.HandleRequest(req, NoContext);
    GreetingHandled(g.middlewares, r, req, NoContext);
  }

  lemma AttachMissing(routes: seq<Route>, path: string, m: Middleware)
    requires forall j | 0 <= j < |routes| :: routes[j].path.source != "^" + path + "$"
    ensures AttachMiddleware(routes, path, m) == routes
  {
  }

  lemma DiffersAt(p: string, src: string, k: nat)
    requires k < |p| && k + 1 < |src| && src[k + 1] != p[k]
    ensures src != "^" + p + "$"
  {
    assert ("^" + p + "$")[k + 1] == p[k];
  }

  lemma UserSourceIsNotTemplate()
    ensures Compile("/users/:id").source != "^" + "/users/:id" + "$"
  {
    var lit, name := "/users/", "id";
    assert lit + ":" + name == "/users/:id";
    assert IsName(name);
    TemplateWithTrailingParam(lit, name);
    ParamSourceIsNotTemplate(lit, name);
  }

  /** For a template with a parameter, the compiled source differs from the
      anchored template at the group's opening parenthesis. */
  lemma ParamSourceIsNotTemplate(lit: string, name: string)
    requires forall i | 0 <= i < |lit| :: lit[i] != ':'
    requires IsName(name)
    ensures Compile(lit + ":" + name).source != "^" + (lit + ":" + name) + "$"
  {
    TemplateWithTrailingParam(lit, name);
    var src := "^" + lit + "([^/]+)" + "$";
    assert src[|lit| + 1] == '(';
    DiffersAt(lit + ":" + name, src, |lit|);
  }

  /** `useOn` finds a route by its compiled source, which for an `on` route
      with a parameter is not the template: the route is left as it was. */
  method UseOnMissesParameterRoute(m: Middleware) returns (attached: nat)
    ensures attached == 0
  {
    var g := new ApiGateway();
    g.On("GET", "/users/:id", UserIdHandler);
    var r := Route("GET", Compile("/users/:id"), Ready(UserIdHandler), []);
    assert g.routes == [r];
    g.UseOn("/users/:id", m);
    UserSourceIsNotTemplate();
    AttachMissing([r], "/users/:id", m);
    attached := |g.routes[0].middlewares|;
  }

  // ---------------------------------------------------------------------
  // Handler resolution as written

  /** src/libs/gateway.ts:131-136 for a route registered by `on`: when
      JavaScript reports the registered function's constructor name as
      `AsyncFunction`, the function is called as a loader and what it
      resolves to is then called as the handler. An `async` route handler
      resolves to a `Response`, and calling that throws a `TypeError`. */
  function InvokeAsWritten(run: RouteHandler, isAsyncFunction: bool, req: Request, ctx: Ctx): Response
  {
    if isAsyncFunction then
      match run(req, ctx)
      case Returned(_) => HandleError(OtherError("handler is not a function"))
      case Raised(e) => HandleError(e)
    else
      ResponseOf(run(req, ctx))
  }

  /** Every `async` handler registered with `on` that returns a response is
      answered with 500 "Internal Server Error" as written, while the handler
      model without the check answers with the handler's own response. */
  lemma AsyncHandlerAnswersInternalError(run: RouteHandler, req: Request, ctx: Ctx)
    requires run(req, ctx).Returned?
    ensures InvokeAsWritten(run, true, req, ctx) == Response(500, Text(InternalErrorText), None)
    ensures Invoke(Ready(run), req, ctx) == run(req, ctx).response
  {
  }

  /** The test's own handler, which is declared `async`: as written the
      request of test/gateway.test.ts:79-86 gets status 500, not 200. */
  lemma UserRouteAsWritten()
    ensures InvokeAsWritten(UserIdHandler, true, Request("GET", "/users/123", map[]),
                            Ctx(map["id" := "123"], map[])).status == 500
    ensures Invoke(Ready(UserIdHandler), Request("GET", "/users/123", map[]),
                   Ctx(map["id" := "123"], map[])).status == 200
  {
  }
}

/**
 * The middleware / data-handler ordering scenario of route_test.go, replayed
 * on the model: three tag middlewares, the default data stage and an echo
 * handler, with a Binary body {Foo: "foo", Bar: "bar"} sent to a POST route.
 */
module RouteExamples {
  import opened Wrappers
  import opened Json
  import opened Wire
  import opened Routes

  /** Go's map index: the value under `key`, nil when absent. */
  function Lookup(members: seq<(string, JsonValue)>, key: string): (v: JsonValue)
    ensures v != JNull ==> exists i :: 0 <= i < |members| && members[i] == (key, v)
  {
    if members == [] then JNull
    else if members[0].0 == key then members[0].1
    else
      var v := Lookup(members[1..], key);
      assert v != JNull ==> exists i :: 0 <= i < |members[1..]| && members[1..][i] == (key, v);
      v
  }

  /** The test's handler: writes its path, then Foo and Bar of the decoded map, then FooBar if present. */
  function Echo(path: string, e: Exchange): Exchange
  {
    var r := e.response + path;
    var r1 :=
      if DefaultKey in e.userValues && e.userValues[DefaultKey].JObject? then
        var m := e.userValues[DefaultKey].members;
        r + "[Foo]=" + Sprint(Lookup(m, "Foo")) + "[Bar]=" + Sprint(Lookup(m, "Bar"))
          + (if Lookup(m, "FooBar") != JNull then "[FooBar]=" + Sprint(Lookup(m, "FooBar")) else "")
      else r;
    e.(response := r1)
  }

  function EchoHandler(path: string): RequestHandler
  {
    (e: Exchange, clients: seq<ServiceClient>) => Echo(path, e)
  }

  const FooBarBody: JsonValue := JObject([("Foo", JString("foo")), ("Bar", JString("bar"))])

  const Tags: seq<string> := ["/t1", "/t2", "/t3"]
  const OrderPath: string := "/middlewares"
  const OrderContract: RouteContract :=
    RouteContract("TestPOST", "Test POST Method", POST, OrderPath, DataHandlerConfig(Unset, ""), JNull)

  lemma TagsConcat()
    ensures Concat(Tags) == "/t1/t2/t3"
  {
    var t2, t1 := Tags[..2], Tags[..1];
    assert t2 == ["/t1", "/t2"] && t1 == ["/t1"] && t2[..1] == t1 && t1[..0] == [];
    assert Concat(t1) == "/t1";
    assert Concat(t2) == "/t1/t2";
  }

  lemma EchoOutput(e: Exchange)
    requires DefaultKey in e.userValues && e.userValues[DefaultKey] == FooBarBody
    ensures Echo(OrderPath, e).response == e.response + "/middlewares[Foo]=foo[Bar]=bar"
  {
    var m := FooBarBody.members;
    assert Lookup(m, "Foo") == JString("foo");
    assert Lookup(m, "Bar") == JString("bar");
    assert Lookup(m, "FooBar") == JNull by {
      assert m[1..][1..] == [];
    }
    assert Echo(OrderPath, e).response == e.response + OrderPath + "[Foo]=" + "foo" + "[Bar]=" + "bar" + "";
    EchoText(e.response);
  }

  lemma EchoText(x: string)
    ensures x + OrderPath + "[Foo]=" + "foo" + "[Bar]=" + "bar" + "" == x + "/middlewares[Foo]=foo[Bar]=bar"
  {
    var t := OrderPath + "[Foo]=" + "foo" + "[Bar]=" + "bar" + "";
    assert t == "/middlewares[Foo]=foo[Bar]=bar";
    assert x + OrderPath + "[Foo]=" + "foo" + "[Bar]=" + "bar" + "" == x + t;
  }

  ghost predicate OrderPipeline(p: Pipeline)
    reads p.route
  {
    && p.middlewares == [TagMiddleware(Tags[0]), TagMiddleware(Tags[1]), TagMiddleware(Tags[2])]
    && p.data == DefaultDataStage
    && p.route.contract == OrderContract
    && p.route.requestHandler == EchoHandler(OrderPath)
  }

  /** The three tags are written, in order, before the data stage. */
  lemma OrderScenarioTags(p: Pipeline, e: Exchange, codecs: Codecs)
    requires OrderPipeline(p)
    ensures RunFrom(p, 0, e, codecs).state == RunFrom(p, 3, e.(response := e.response + "/t1/t2/t3"), codecs).state
  {
    TagsWriteInOrder(p, Tags, 0, e, codecs);
    assert Tags[0..] == Tags;
    TagsConcat();
  }

  /** The default data stage stores the decoded body under "data" and the handler echoes it. */
  lemma OrderScenarioData(p: Pipeline, e: Exchange, codecs: Codecs)
    requires OrderPipeline(p)
    requires e.contentType == ContentType(Binary)
    requires |e.postBody| > 0 && codecs.msgpackUnmarshal(e.postBody) == Decoded(FooBarBody.members, None)
    requires codecs.structure(JNull, FooBarBody.members) == FooBarBody
    ensures RunFrom(p, 3, e, codecs).state.response == e.response + "/middlewares[Foo]=foo[Bar]=bar"
  {
    var decoded := e.(userValues := e.userValues[DefaultKey := FooBarBody]);
    assert DataStageOutcome(p, e, codecs) == Continue(decoded);
    assert RunFrom(p, 3, e, codecs).state == Echo(OrderPath, decoded);
    EchoOutput(decoded);
  }

  lemma OrderScenarioRun(p: Pipeline, e: Exchange, codecs: Codecs)
    requires OrderPipeline(p)
    requires e.response == "" && e.contentType == ContentType(Binary)
    requires |e.postBody| > 0 && codecs.msgpackUnmarshal(e.postBody) == Decoded(FooBarBody.members, None)
    requires codecs.structure(JNull, FooBarBody.members) == FooBarBody
    ensures RunFrom(p, 0, e, codecs).state.response == "/t1/t2/t3/middlewares[Foo]=foo[Bar]=bar"
  {
    OrderScenarioTags(p, e, codecs);
    assert e.response + "/t1/t2/t3" == "/t1/t2/t3";
    OrderScenarioData(p, e.(response := "/t1/t2/t3"), codecs);
    ScenarioText();
  }

  lemma ScenarioText()
    ensures "/t1/t2/t3" + "/middlewares[Foo]=foo[Bar]=bar" == "/t1/t2/t3/middlewares[Foo]=foo[Bar]=bar"
  {
  }

  /** The scenario's route with its three tag middlewares, started on a fresh router with no prefix. */
  method RegisterOrderRoute() returns (route: Route, router: Router)
    ensures fresh(route) && fresh(router)
    ensures route.contract == OrderContract && route.requestHandler == EchoHandler(OrderPath)
    ensures route.middlewares == [TagMiddleware(Tags[0]), TagMiddleware(Tags[1]), TagMiddleware(Tags[2])]
    ensures route.dataHandler == None
    ensures router.registrations == [Registration(POST, OrderPath, StartMiddlewares(route))]
  {
    route := new Route(OrderContract, EchoHandler(OrderPath),
                       [TagMiddleware(Tags[0]), TagMiddleware(Tags[1]), TagMiddleware(Tags[2])], None);
    router := new Router();
    StartRoute(route, router, "");
    assert OrderContract.Method() == POST && POST in {DELETE, GET, POST, PUT};
    assert "" + OrderPath == OrderPath;
  }

  /** The request the client prepares for the route, as the server's context receives it. */
  method OrderRequest(codecs: Codecs) returns (ctx: RequestCtx)
    ensures fresh(ctx)
    ensures ctx.State() == Exchange(codecs.msgpackMarshal(FooBarBody).bytes, ContentType(Binary), StatusOK, "", map[])
  {
    var req := new Request("http://localhost:8084" + OrderPath);
    var payload := ServiceRequest([], [], FooBarBody, Unset);
    var _ := PrepareRequest(OrderContract, req, payload, codecs);
    assert req.headers == map[ContentTypeHeader := ContentType(Binary)];
    ctx := new RequestCtx(req.body, req.headers[ContentTypeHeader]);
  }

  /**
   * The route's handler output is the tags in order, then the path, then the
   * decoded body: the data stage ran after every middleware and before the
   * handler. The requirements say the message-pack codec round-trips the body.
   */
  method MiddlewareDataHandlerOrder(codecs: Codecs) returns (body: string)
    requires |codecs.msgpackMarshal(FooBarBody).bytes| > 0
    requires codecs.msgpackUnmarshal(codecs.msgpackMarshal(FooBarBody).bytes) == Decoded(FooBarBody.members, None)
    requires codecs.structure(JNull, FooBarBody.members) == FooBarBody
    ensures body == "/t1/t2/t3/middlewares[Foo]=foo[Bar]=bar"
  {
    var route, router := RegisterOrderRoute();
    var ctx := OrderRequest(codecs);
    ghost var start := ctx.State();
    // the router hands the request to the handler registered for POST /middlewares
    var p := router.registrations[0].handler;
    assert OrderPipeline(p);
    var _ := Serve(p, ctx, codecs);
    OrderScenarioRun(p, start, codecs);
    body := ctx.response;
  }
}

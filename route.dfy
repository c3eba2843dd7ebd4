/**
 * route.go: route contracts and their defaults, outbound request
 * preparation (route parameters, then query parameters, then the body as
 * the effective data type dictates), the inbound chain of middlewares, data
 * stage and terminal handler, and route registration.
 */
module Routes {
  import opened Wrappers
  import opened Text
  import opened Json
  import opened Wire
  import opened Placeholders

  const DELETE: string := "DELETE"
  const GET: string := "GET"
  const POST: string := "POST"
  const PUT: string := "PUT"
  const DefaultRouteMethod: string := GET
  const DefaultBodyDataType: DataType := Binary

  datatype DataHandlerConfig = DataHandlerConfig(bodyType: DataType, userValueKey: string)

  /** A route's contract; `name` holds Go's `Label` (`label` is a reserved word in Dafny). */
  datatype RouteContract = RouteContract(
    name: string,
    description: string,
    httpMethod: string,
    path: string,
    config: DataHandlerConfig,
    data: JsonValue)
  {
    /** `method()`: the declared method, GET when none is declared. */
    function Method(): (m: string)
      ensures m != ""
      ensures httpMethod != "" ==> m == httpMethod
      ensures httpMethod == "" ==> m == GET
    {
      if |httpMethod| > 0 then httpMethod else DefaultRouteMethod
    }

    /** `DataType()`: the configured body type, Binary when none is configured. */
    function DeclaredDataType(): (t: DataType)
      ensures t != Unset
      ensures config.bodyType != Unset ==> t == config.bodyType
      ensures config.bodyType == Unset ==> t == Binary
    {
      if config.bodyType != Unset then config.bodyType else DefaultBodyDataType
    }

    /** `userValueKey()`: the configured key, "data" when none is configured. */
    function UserValueKey(): (k: string)
      ensures k != ""
      ensures config.userValueKey != "" ==> k == config.userValueKey
      ensures config.userValueKey == "" ==> k == "data"
    {
      if |config.userValueKey| > 0 then config.userValueKey else DefaultKey
    }
  }

  /**
   * A service's contract as its clients see it (declared outside the modelled
   * files); `name` holds Go's `Label`.
   */
  datatype ServiceContract = ServiceContract(
    name: string,
    host: string,
    port: int,
    namespace: string,
    routeContracts: seq<RouteContract>)

  datatype ServiceClient = ServiceClient(contract: ServiceContract)

  /**
   * The outbound payload envelope (declared outside the modelled files).
   * Parameter maps are kept as their members; `Unset` means no override.
   */
  datatype ServiceRequest = ServiceRequest(
    routeParams: seq<(string, JsonValue)>,
    queryParams: seq<(string, JsonValue)>,
    body: JsonValue,
    dataType: DataType)

  // ----- outbound: the URI -----

  datatype UriResult = UriResult(uri: string, err: Option<Error>)

  /** What `prepareRouteParams` needs to not index out of range: each placeholder has a value. */
  predicate RouteParamsBound(route: RouteContract, payload: ServiceRequest, codecs: Codecs)
  {
    var c := codecs.toUrlValues(JObject(payload.routeParams));
    |payload.routeParams| == 0 || c.err.Some? || ParamsBound(route.path, c.values)
  }

  /**
   * The URI `prepareRouteParams` leaves: with route parameters, the first
   * occurrence of the raw template is replaced by the substituted template.
   */
  function RouteParamsUri(uri: string, route: RouteContract, payload: ServiceRequest, codecs: Codecs): (r: UriResult)
    requires RouteParamsBound(route, payload, codecs)
    ensures |payload.routeParams| == 0 ==> r == UriResult(uri, None)
    ensures |payload.routeParams| > 0 ==> r.err == codecs.toUrlValues(JObject(payload.routeParams)).err
    ensures r.err.Some? ==> r.uri == uri
    ensures r.err.None? && |payload.routeParams| > 0 ==>
      var sub := ReplaceRouteMatches(route.path, codecs.toUrlValues(JObject(payload.routeParams)).values);
      && (IndexOf(uri, route.path).None? ==> r.uri == uri)
      && (forall i :: IndexOf(uri, route.path) == Some(i) ==>
            i + |route.path| <= |uri| && r.uri == uri[..i] + sub + uri[i + |route.path|..])
  {
    if |payload.routeParams| == 0 then UriResult(uri, None)
    else
      var c := codecs.toUrlValues(JObject(payload.routeParams));
      if c.err.Some? then UriResult(uri, c.err)
      else UriResult(ReplaceFirst(uri, route.path, ReplaceRouteMatches(route.path, c.values)), None)
  }

  /** The URI `prepareQueryParams` leaves: "?" and the encoded parameters appended to the whole URI. */
  function QueryParamsUri(uri: string, payload: ServiceRequest, codecs: Codecs): (r: UriResult)
    ensures |payload.queryParams| == 0 ==> r == UriResult(uri, None)
    ensures |payload.queryParams| > 0 ==> r.err == codecs.toUrlValues(JObject(payload.queryParams)).err
    ensures r.err.Some? ==> r.uri == uri
    ensures r.err.None? && |payload.queryParams| > 0 ==>
      r.uri == uri + "?" + codecs.encodeValues(codecs.toUrlValues(JObject(payload.queryParams)).values)
  {
    if |payload.queryParams| == 0 then UriResult(uri, None)
    else
      var c := codecs.toUrlValues(JObject(payload.queryParams));
      if c.err.Some? then UriResult(uri, c.err)
      else UriResult(uri + "?" + codecs.encodeValues(c.values), None)
  }

  /** The query is appended even when the URI already has one, so the URI then holds two '?'. */
  lemma QueryAppendKeepsExistingQuery(uri: string, payload: ServiceRequest, codecs: Codecs, k: nat)
    requires k < |uri| && uri[k] == '?'
    requires |payload.queryParams| > 0 && codecs.toUrlValues(JObject(payload.queryParams)).err.None?
    ensures var r := QueryParamsUri(uri, payload, codecs).uri;
      |r| > |uri| && r[k] == '?' && r[|uri|] == '?' && k != |uri|
  {
  }

  method PrepareRouteParams(route: RouteContract, req: Request, payload: ServiceRequest, codecs: Codecs)
    returns (err: Option<Error>)
    requires RouteParamsBound(route, payload, codecs)
    modifies req
    ensures UriResult(req.uri, err) == RouteParamsUri(old(req.uri), route, payload, codecs)
    ensures req.httpMethod == old(req.httpMethod) && req.headers == old(req.headers) && req.body == old(req.body)
  {
    if |payload.routeParams| == 0 {
      return None;
    }
    var c := codecs.toUrlValues(JObject(payload.routeParams));
    if c.err.Some? {
      return c.err;
    }
    var path := ReplaceRouteMatches(route.path, c.values);
    var uriStr := req.uri;
    req.uri := ReplaceFirst(uriStr, route.path, path);
    return None;
  }

  method PrepareQueryParams(req: Request, payload: ServiceRequest, codecs: Codecs) returns (err: Option<Error>)
    modifies req
    ensures UriResult(req.uri, err) == QueryParamsUri(old(req.uri), payload, codecs)
    ensures req.httpMethod == old(req.httpMethod) && req.headers == old(req.headers) && req.body == old(req.body)
  {
    if |payload.queryParams| == 0 {
      return None;
    }
    var c := codecs.toUrlValues(JObject(payload.queryParams));
    if c.err.Some? {
      return c.err;
    }
    var query := "?" + codecs.encodeValues(c.values);
    req.uri := req.uri + query;
    return None;
  }

  // ----- outbound: the body -----

  /** The per-request override when there is one, else the route's declared type. */
  function EffectiveDataType(route: RouteContract, payload: ServiceRequest): (t: DataType)
    ensures t != Unset
    ensures payload.dataType != Unset ==> t == payload.dataType
    ensures payload.dataType == Unset ==> t == route.DeclaredDataType()
  {
    if payload.dataType != Unset then payload.dataType else route.DeclaredDataType()
  }

  /** What the body dispatch writes: a Content-Type, a body (each possibly nothing) and the error returned. */
  datatype BodyWrite = BodyWrite(contentType: Option<string>, body: Option<string>, err: Option<Error>)

  function EncodeBody(t: DataType, body: JsonValue, codecs: Codecs): (w: BodyWrite)
    ensures w.contentType.Some? <==> w.body.Some?
    ensures w.contentType.Some? ==> w.contentType.value == ContentType(if t == JSON || t == Form then t else Binary)
    ensures t == JSON ==> w.body == Some(codecs.jsonMarshal(body).bytes) && w.err == codecs.jsonMarshal(body).err
    ensures t == Form ==>
      && w.err == codecs.toUrlValues(body).err
      && (w.body.Some? <==> codecs.toUrlValues(body).err.None?)
      && (w.body.Some? ==> w.body.value == codecs.encodeValues(codecs.toUrlValues(body).values))
    ensures t == MultipartForm ==> w.body.None? && w.err.None?
    ensures t !in {JSON, Form, MultipartForm} ==>
      w.body == Some(codecs.msgpackMarshal(body).bytes) && w.err == codecs.msgpackMarshal(body).err
  {
    match t
    case JSON =>
      var b := codecs.jsonMarshal(body);
      BodyWrite(Some(ContentType(JSON)), Some(b.bytes), b.err)
    case MultipartForm => BodyWrite(None, None, None)
    case Form =>
      var c := codecs.toUrlValues(body);
      if c.err.Some? then BodyWrite(None, None, c.err)
      else BodyWrite(Some(ContentType(Form)), Some(codecs.encodeValues(c.values)), None)
    case _ =>
      var b := codecs.msgpackMarshal(body);
      BodyWrite(Some(ContentType(Binary)), Some(b.bytes), b.err)
  }

  /** Any type other than JSON, Form and MultipartForm, the unset one included, is sent as Binary. */
  lemma UnknownTypesEncodeAsBinary(t: DataType, body: JsonValue, codecs: Codecs)
    requires t !in {JSON, MultipartForm, Form}
    ensures EncodeBody(t, body, codecs) == EncodeBody(Binary, body, codecs)
  {
  }

  function WithHeader(headers: map<string, string>, value: Option<string>): map<string, string>
  {
    if value.Some? then headers[ContentTypeHeader := value.value] else headers
  }

  /**
   * `prepareRequest`: sets the method, applies route parameters, then query
   * parameters; an error from either returns before anything else is
   * written; otherwise the body is written as the effective data type says.
   */
  method PrepareRequest(route: RouteContract, req: Request, payload: ServiceRequest, codecs: Codecs)
    returns (err: Option<Error>)
    requires RouteParamsBound(route, payload, codecs)
    modifies req
    ensures req.httpMethod == route.httpMethod
    ensures var r1 := RouteParamsUri(old(req.uri), route, payload, codecs);
      r1.err.Some? ==>
        err == r1.err && req.uri == old(req.uri) && req.headers == old(req.headers) && req.body == old(req.body)
    ensures var r1 := RouteParamsUri(old(req.uri), route, payload, codecs);
      var r2 := QueryParamsUri(r1.uri, payload, codecs);
      r1.err.None? && r2.err.Some? ==>
        err == r2.err && req.uri == r1.uri && req.headers == old(req.headers) && req.body == old(req.body)
    ensures var r1 := RouteParamsUri(old(req.uri), route, payload, codecs);
      var r2 := QueryParamsUri(r1.uri, payload, codecs);
      var w := EncodeBody(EffectiveDataType(route, payload), payload.body, codecs);
      r1.err.None? && r2.err.None? ==>
        && err == w.err
        && req.uri == r2.uri
        && req.headers == WithHeader(old(req.headers), w.contentType)
        && req.body == (if w.body.Some? then w.body.value else old(req.body))
  {
    req.httpMethod := route.httpMethod;
    err := PrepareRouteParams(route, req, payload, codecs);
    if err.Some? {
      return;
    }
    err := PrepareQueryParams(req, payload, codecs);
    if err.Some? {
      return;
    }
    var dataType := payload.dataType;
    if dataType == Unset {
      dataType := route.DeclaredDataType();
    }
    if dataType == JSON {
      var b := codecs.jsonMarshal(payload.body);
      req.headers := req.headers[ContentTypeHeader := ContentType(JSON)];
      req.body := b.bytes;
      return b.err;
    } else if dataType == MultipartForm {
    } else if dataType == Form {
      var c := codecs.toUrlValues(payload.body);
      if c.err.Some? {
        return c.err;
      }
      req.headers := req.headers[ContentTypeHeader := ContentType(Form)];
      req.body := codecs.encodeValues(c.values);
      return None;
    } else {
      var b := codecs.msgpackMarshal(payload.body);
      req.headers := req.headers[ContentTypeHeader := ContentType(Binary)];
      req.body := b.bytes;
      return b.err;
    }
    return None;
  }

  // ----- inbound: the chain of stages -----

  /** A stage either calls the next one with the context it leaves, or stops there. */
  datatype StageOutcome = Continue(state: Exchange) | Halt(state: Exchange)

  /** A middleware constructor, seen through what it does before calling `next`. */
  datatype Middleware = Middleware(name: string, run: Exchange -> StageOutcome)

  /** The application handler; it also receives the route's service clients. */
  type RequestHandler = (Exchange, seq<ServiceClient>) -> Exchange

  class Route {
    const contract: RouteContract
    var requestHandler: RequestHandler
    var middlewares: seq<Middleware>
    var dataHandler: Option<Middleware>
    var serviceClients: seq<ServiceClient>

    constructor (contract: RouteContract, requestHandler: RequestHandler,
                 middlewares: seq<Middleware>, dataHandler: Option<Middleware>)
      ensures this.contract == contract && this.requestHandler == requestHandler
      ensures this.middlewares == middlewares && this.dataHandler == dataHandler
      ensures serviceClients == []
    {
      this.contract := contract;
      this.requestHandler := requestHandler;
      this.middlewares := middlewares;
      this.dataHandler := dataHandler;
      serviceClients := [];
    }

    /** `addServiceClient`: appends one client at the end and keeps the earlier ones. */
    method AddServiceClient(client: ServiceClient)
      modifies this`serviceClients
      ensures serviceClients == old(serviceClients) + [client]
    {
      if |serviceClients| == 0 {
        serviceClients := [];
      }
      serviceClients := serviceClients + [client];
    }
  }

  datatype DataStage = DefaultDataStage | CustomDataStage(handler: Middleware)

  /** The composed handler: the middlewares, the data stage, and the route whose handler ends the chain. */
  datatype Pipeline = Pipeline(middlewares: seq<Middleware>, data: DataStage, route: Route)

  datatype StageLabel = MiddlewareAt(index: nat) | DataStageRan | TerminalRan

  /** `startMiddlewares`: the route's middlewares, then its custom data handler if it has one, else the default. */
  function StartMiddlewares(route: Route): Pipeline
    reads route
  {
    var dh := if route.dataHandler.Some? then CustomDataStage(route.dataHandler.value) else DefaultDataStage;
    Pipeline(route.middlewares, dh, route)
  }

  /**
   * A route's composed chain runs the route's own middlewares, in order, and
   * ends with the route's handler; its data stage runs the route's own data
   * handler when it has one, and the default decoder otherwise.
   */
  lemma ChainDataStage(route: Route, e: Exchange, codecs: Codecs)
    ensures StartMiddlewares(route).middlewares == route.middlewares
    ensures StartMiddlewares(route).route == route
    ensures DataStageOutcome(StartMiddlewares(route), e, codecs)
         == if route.dataHandler.Some? then route.dataHandler.value.run(e) else DefaultDecode(route.contract, e, codecs)
  {
  }

  /** The stages of a pipeline in the order they are meant to run. */
  function Labels(p: Pipeline): seq<StageLabel>
  {
    seq(|p.middlewares|, k requires 0 <= k => MiddlewareAt(k)) + [DataStageRan, TerminalRan]
  }

  /** The body decoder the request's Content-Type selects; any other Content-Type decodes nothing. */
  function DecodeBody(contentType: string, body: string, codecs: Codecs): Decoded
  {
    if contentType == ContentType(JSON) then codecs.jsonUnmarshal(body)
    else if contentType == ContentType(Binary) then codecs.msgpackUnmarshal(body)
    else Decoded([], None)
  }

  /** What `defaultDataHandler` does to the context, and whether it calls `next`. */
  function DefaultDecode(contract: RouteContract, e: Exchange, codecs: Codecs): (o: StageOutcome)
    ensures o.Halt? <==> |e.postBody| > 0 && DecodeBody(e.contentType, e.postBody, codecs).err.Some?
    ensures o.Halt? ==>
      && o.state.status == StatusBadRequest
      && o.state.response == e.response + DecodeBody(e.contentType, e.postBody, codecs).err.value.text
    ensures o.Continue? ==> o.state == e.(userValues := o.state.userValues)
    ensures o.state.postBody == e.postBody && o.state.contentType == e.contentType
    ensures |e.postBody| == 0 ==> o == Continue(e)
    ensures e.contentType != ContentType(JSON) && e.contentType != ContentType(Binary) ==> o == Continue(e)
    ensures var d := DecodeBody(e.contentType, e.postBody, codecs);
      o.state.userValues ==
        if |e.postBody| > 0 && |d.members| > 0
        then e.userValues[contract.UserValueKey() := codecs.structure(contract.data, d.members)]
        else e.userValues
  {
    if |e.postBody| == 0 then Continue(e)
    else
      var d := DecodeBody(e.contentType, e.postBody, codecs);
      var e1 :=
        if |d.members| > 0
        then e.(userValues := e.userValues[contract.UserValueKey() := codecs.structure(contract.data, d.members)])
        else e;
      if d.err.Some? then Halt(e1.(status := StatusBadRequest, response := e1.response + d.err.value.text))
      else Continue(e1)
  }

  method DefaultDataHandler(route: Route, ctx: RequestCtx, codecs: Codecs) returns (proceed: bool)
    modifies ctx
    ensures (if proceed then Continue(ctx.State()) else Halt(ctx.State()))
         == DefaultDecode(route.contract, old(ctx.State()), codecs)
  {
    var err: Option<Error> := None;
    var body := ctx.postBody;
    var key := route.contract.UserValueKey();
    var dataType := ctx.contentType;
    if |body| > 0 {
      var m: seq<(string, JsonValue)> := [];
      if dataType == ContentType(JSON) {
        var d := codecs.jsonUnmarshal(body);
        m, err := d.members, d.err;
      }
      if dataType == ContentType(Binary) {
        var d := codecs.msgpackUnmarshal(body);
        m, err := d.members, d.err;
      }
      if |m| > 0 {
        var data := codecs.structure(route.contract.data, m);
        ctx.userValues := ctx.userValues[key := data];
      }
    }
    if err.Some? {
      ctx.status := StatusBadRequest;
      ctx.response := ctx.response + err.value.text;
      return false;
    }
    return true;
  }

  function DataStageOutcome(p: Pipeline, e: Exchange, codecs: Codecs): StageOutcome
  {
    match p.data
    case DefaultDataStage => DefaultDecode(p.route.contract, e, codecs)
    case CustomDataStage(h) => h.run(e)
  }

  datatype RunResult = RunResult(state: Exchange, trace: seq<StageLabel>)

  function Prepend(labels: seq<StageLabel>, r: RunResult): RunResult
  {
    RunResult(r.state, labels + r.trace)
  }

  /** Runs the middlewares from the `i`-th on, then the data stage, then the terminal handler. */
  function RunFrom(p: Pipeline, i: nat, e: Exchange, codecs: Codecs): (r: RunResult)
    requires i <= |p.middlewares|
    reads p.route
    decreases |p.middlewares| - i
  {
    if i < |p.middlewares| then
      match p.middlewares[i].run(e)
      case Halt(e1) => RunResult(e1, [MiddlewareAt(i)])
      case Continue(e1) => Prepend([MiddlewareAt(i)], RunFrom(p, i + 1, e1, codecs))
    else
      match DataStageOutcome(p, e, codecs)
      case Halt(e1) => RunResult(e1, [DataStageRan])
      case Continue(e1) => RunResult(p.route.requestHandler(e1, p.route.serviceClients), [DataStageRan, TerminalRan])
  }

  /** Calls the composed handler on a request context. */
  method Serve(p: Pipeline, ctx: RequestCtx, codecs: Codecs) returns (trace: seq<StageLabel>)
    modifies ctx
    ensures RunResult(ctx.State(), trace) == RunFrom(p, 0, old(ctx.State()), codecs)
  {
    ghost var start := ctx.State();
    trace := [];
    var i := 0;
    while i < |p.middlewares|
      invariant 0 <= i <= |p.middlewares|
      invariant |trace| == i && forall k :: 0 <= k < i ==> trace[k] == MiddlewareAt(k)
      invariant RunFrom(p, 0, start, codecs) == Prepend(trace, RunFrom(p, i, ctx.State(), codecs))
    {
      ghost var before := ctx.State();
      var out := p.middlewares[i].run(ctx.State());
      ctx.Load(out.state);
      if out.Halt? {
        assert RunFrom(p, i, before, codecs) == RunResult(out.state, [MiddlewareAt(i)]);
        trace := trace + [MiddlewareAt(i)];
        return;
      }
      assert RunFrom(p, i, before, codecs) == Prepend([MiddlewareAt(i)], RunFrom(p, i + 1, out.state, codecs));
      PrependTwice(trace, [MiddlewareAt(i)], RunFrom(p, i + 1, out.state, codecs));
      trace := trace + [MiddlewareAt(i)];
      i := i + 1;
    }
    var proceed: bool;
    match p.data {
      case DefaultDataStage =>
        proceed := DefaultDataHandler(p.route, ctx, codecs);
      case CustomDataStage(h) =>
        var out := h.run(ctx.State());
        ctx.Load(out.state);
        proceed := out.Continue?;
    }
    trace := trace + [DataStageRan];
    if !proceed {
      return;
    }
    var final := p.route.requestHandler(ctx.State(), p.route.serviceClients);
    ctx.Load(final);
    trace := trace + [TerminalRan];
  }

  lemma PrependTwice(a: seq<StageLabel>, b: seq<StageLabel>, r: RunResult)
    ensures Prepend(a, Prepend(b, r)) == Prepend(a + b, r)
  {
    assert a + (b + r.trace) == (a + b) + r.trace;
  }

  // ----- what the chain guarantees -----

  /** The stages that run are a prefix of the declared order: middlewares, data stage, terminal. */
  lemma {:induction false} RunFollowsDeclaredOrder(p: Pipeline, i: nat, e: Exchange, codecs: Codecs)
    requires i <= |p.middlewares|
    ensures var t := RunFrom(p, i, e, codecs).trace;
      0 < |t| <= |Labels(p)| - i && t == Labels(p)[i..i + |t|]
    decreases |p.middlewares| - i
  {
    var t := RunFrom(p, i, e, codecs).trace;
    var labels := Labels(p);
    var n := |p.middlewares|;
    if i < n {
      assert labels[i] == MiddlewareAt(i);
      match p.middlewares[i].run(e)
      case Halt(e1) =>
      case Continue(e1) =>
        RunFollowsDeclaredOrder(p, i + 1, e1, codecs);
        var t1 := RunFrom(p, i + 1, e1, codecs).trace;
        assert t == [MiddlewareAt(i)] + t1;
        assert labels[i..i + |t|] == [labels[i]] + labels[i + 1..i + 1 + |t1|];
    } else {
      assert labels[n] == DataStageRan && labels[n + 1] == TerminalRan;
    }
  }

  /** The terminal handler runs only after every middleware and the data stage, in that order. */
  lemma TerminalRunsLast(p: Pipeline, e: Exchange, codecs: Codecs)
    ensures var t := RunFrom(p, 0, e, codecs).trace;
      TerminalRan in t ==> t == Labels(p)
  {
    var t := RunFrom(p, 0, e, codecs).trace;
    RunFollowsDeclaredOrder(p, 0, e, codecs);
    var labels := Labels(p);
    if TerminalRan in t {
      var k :| 0 <= k < |t| && t[k] == TerminalRan;
      assert labels[k] == TerminalRan;
      assert k == |labels| - 1;
    }
  }

  /** A middleware that writes a tag to the response and calls `next`. */
  function TagMiddleware(tag: string): Middleware
  {
    Middleware(tag, (e: Exchange) => Continue(e.(response := e.response + tag)))
  }

  function Concat(parts: seq<string>): string
  {
    if parts == [] then "" else Concat(parts[..|parts| - 1]) + parts[|parts| - 1]
  }

  /** Tag middlewares write their tags in declaration order before the data stage sees the context. */
  lemma {:induction false} TagsWriteInOrder(p: Pipeline, tags: seq<string>, i: nat, e: Exchange, codecs: Codecs)
    requires |p.middlewares| == |tags| && i <= |tags|
    requires forall k :: 0 <= k < |tags| ==> p.middlewares[k] == TagMiddleware(tags[k])
    ensures RunFrom(p, i, e, codecs)
         == Prepend(seq(|tags| - i, k requires 0 <= k => MiddlewareAt(i + k)),
                    RunFrom(p, |tags|, e.(response := e.response + Concat(tags[i..])), codecs))
    decreases |tags| - i
  {
    var n := |tags|;
    if i == n {
      assert tags[i..] == [];
      assert e.(response := e.response + "") == e;
      assert seq(0, k requires 0 <= k => MiddlewareAt(i + k)) == [];
    } else {
      var e1 := e.(response := e.response + tags[i]);
      assert p.middlewares[i].run(e) == Continue(e1);
      assert RunFrom(p, i, e, codecs) == Prepend([MiddlewareAt(i)], RunFrom(p, i + 1, e1, codecs));
      TagsWriteInOrder(p, tags, i + 1, e1, codecs);
      TagWritten(e, tags, i);
      var last := RunFrom(p, n, e.(response := e.response + Concat(tags[i..])), codecs);
      var rest := seq(n - (i + 1), k requires 0 <= k => MiddlewareAt(i + 1 + k));
      assert RunFrom(p, i + 1, e1, codecs) == Prepend(rest, last);
      PrependTwice([MiddlewareAt(i)], rest, last);
      MiddlewareLabelsCons(i, n);
    }
  }

  /** Writing the `i`-th tag and then the rest is writing the tags from the `i`-th on. */
  lemma TagWritten(e: Exchange, tags: seq<string>, i: nat)
    requires i < |tags|
    ensures var e1 := e.(response := e.response + tags[i]);
      e1.(response := e1.response + Concat(tags[i + 1..])) == e.(response := e.response + Concat(tags[i..]))
  {
    ConcatFront(tags[i..]);
    assert tags[i..][1..] == tags[i + 1..];
  }

  lemma MiddlewareLabelsCons(i: nat, n: nat)
    requires i < n
    ensures [MiddlewareAt(i)] + seq(n - (i + 1), k requires 0 <= k => MiddlewareAt(i + 1 + k))
         == seq(n - i, k requires 0 <= k => MiddlewareAt(i + k))
  {
  }

  lemma {:induction false} ConcatFront(parts: seq<string>)
    requires parts != []
    ensures Concat(parts) == parts[0] + Concat(parts[1..])
    decreases |parts|
  {
    if |parts| > 1 {
      var last := |parts| - 1;
      ConcatFront(parts[..last]);
      assert parts[..last][1..] == parts[1..][..|parts[1..]| - 1];
      assert parts[..last][0] == parts[0];
    } else {
      assert parts[1..] == [];
      assert parts[..0] == [];
    }
  }

  /**
   * When the default data stage fails to decode after tag middlewares, the
   * response holds the tags and then the error text, the status is 400, and
   * the terminal handler never runs.
   */
  lemma DecodeFailureStopsChain(p: Pipeline, tags: seq<string>, e: Exchange, codecs: Codecs)
    requires |p.middlewares| == |tags|
    requires forall k :: 0 <= k < |tags| ==> p.middlewares[k] == TagMiddleware(tags[k])
    requires p.data == DefaultDataStage
    requires |e.postBody| > 0 && DecodeBody(e.contentType, e.postBody, codecs).err.Some?
    ensures var r := RunFrom(p, 0, e, codecs);
      && r.trace == Labels(p)[..|tags| + 1]
      && r.state.status == StatusBadRequest
      && r.state.response == e.response + Concat(tags) + DecodeBody(e.contentType, e.postBody, codecs).err.value.text
  {
    TagsWriteInOrder(p, tags, 0, e, codecs);
    assert tags[0..] == tags;
    var e1 := e.(response := e.response + Concat(tags));
    var o := DefaultDecode(p.route.contract, e1, codecs);
    assert o.Halt?;
    assert DataStageOutcome(p, e1, codecs) == o;
    assert RunFrom(p, |tags|, e1, codecs) == RunResult(o.state, [DataStageRan]);
    LabelsUpToDataStage(p);
  }

  lemma LabelsUpToDataStage(p: Pipeline)
    ensures Labels(p)[..|p.middlewares| + 1]
         == seq(|p.middlewares|, k requires 0 <= k => MiddlewareAt(0 + k)) + [DataStageRan]
  {
  }

  // ----- registration -----

  datatype Registration = Registration(httpMethod: string, path: string, handler: Pipeline)

  /** The router, seen through the handlers registered with it, in registration order. */
  class Router {
    var registrations: seq<Registration>

    constructor ()
      ensures registrations == []
    {
      registrations := [];
    }

    method Handle(httpMethod: string, path: string, handler: Pipeline)
      modifies this
      ensures registrations == old(registrations) + [Registration(httpMethod, path, handler)]
    {
      registrations := registrations + [Registration(httpMethod, path, handler)];
    }
  }

  /** What `startRoute` registers: the composed handler at `prefix + path` under `method()`, if that is a known method. */
  function RegistrationFor(route: Route, prefix: string): (r: Option<Registration>)
    reads route
    ensures r.Some? <==> route.contract.Method() in {DELETE, GET, POST, PUT}
    ensures r.Some? ==> r.value == Registration(route.contract.Method(), prefix + route.contract.path, StartMiddlewares(route))
  {
    var m := route.contract.Method();
    if m in {DELETE, GET, POST, PUT}
    then Some(Registration(m, prefix + route.contract.path, StartMiddlewares(route)))
    else None
  }

  function Registered(r: Option<Registration>): seq<Registration>
  {
    if r.Some? then [r.value] else []
  }

  method StartRoute(route: Route, router: Router, prefix: string)
    modifies router
    ensures router.registrations == old(router.registrations) + Registered(RegistrationFor(route, prefix))
  {
    var handler := StartMiddlewares(route);
    var path := prefix + route.contract.path;
    var m := route.contract.Method();
    if m == DELETE {
      router.Handle(DELETE, path, handler);
    } else if m == GET {
      router.Handle(GET, path, handler);
    } else if m == POST {
      router.Handle(POST, path, handler);
    } else if m == PUT {
      router.Handle(PUT, path, handler);
    }
  }
}

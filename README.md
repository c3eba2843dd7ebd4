# lotus: contract-to-wire translation, modelled in Dafny

This project models the part of the lotus micro-service kit that turns declarative contracts into wire traffic,
and it proves properties of that model. It covers five pieces:

- **Route contracts.** A route has a label, an HTTP method, a path template such as `/docs/:id` and a body data type.
  The defaults are GET, Binary and the user-value key `"data"`.
- **Outbound requests.** `prepareRequest` and `DataHandler.PrepareRouteRequest` set the method.
  Route parameters are substituted into the path template, and the first occurrence of the raw template in the URI is
  replaced by the result. Query parameters are appended as `"?" + encoded`. The body is written according to the
  effective data type: the per-request override, else the route's default.
- **The inbound chain.** It runs the route's middlewares in order, then the data stage, then the route's handler.
  The data stage is the custom data handler when one is set, otherwise the default decoder. A decode failure answers
  400 with the error text and stops the chain.
- **Field flattening** (`dataModelToMap`). A payload becomes URL values: a list gives its string elements, a scalar
  gives its printed form, and conversion errors are recorded without stopping the pass.
- **Services.** A service builds a listening address and a URL prefix from its defaults, creates its router once and
  registers its routes under that prefix. A linear lookup finds a service contract by label.

Modules follow the Go files:

- `Routes` (route.dfy) models route.go.
- `Data` (data.dfy) models data.go.
- `Services` (service.dfy) models service.go.
- `Contracts` (contract.dfy) models contract.go.
- `RouteExamples` (route_examples.dfy) replays the middleware-order scenario of route_test.go.
- Support modules:
  - `Placeholders`: the `:[a-zA-Z0-9]*` scanner and substitution.
  - `Text`: `strings.Index`, `strings.Replace(…, 1)` and decimal printing.
  - `Json`: a decoded-value type and `fmt.Sprint`.
  - `Wire`: the shared `DataType` enum, the request and context records and the abstract codecs.
  - `Wrappers`: `Option`.

Modelling choices:

- The two Go files disagree on `DataType`: route.go compares it as a Content-Type string, and data.go declares it as
  an int. The model uses one enum, where `Unset` stands for both `""` and `0`. `ContentType` maps the four body types
  to their standard media types.
- JSON, msgpack, `mapstructure.Decode`, `url.Values.Encode` and `dataToUrlValues` are given functions.
  They are fields of a `Codecs` value passed to every operation that uses them.
- A Go map that is ranged over or counted is a sequence of key/value pairs in one possible iteration order.
- A fasthttp request is the `Request` class: method, URI, headers and body. A request context is the `RequestCtx`
  class: body, Content-Type, status, response text and user values.
- The router is a list of registrations, each a method, a path and a composed handler.
- A middleware is a function from the context to `Continue` or `Halt`. The composed chain is a `Pipeline`.
  `Serve` runs it on a context and returns the trace of stages that ran. `RunFrom` is the specification that `Serve`
  is proved against.

Three behaviours are kept exactly as the code has them:

- The query string is appended even when the URI already holds one, giving two `?`.
- A placeholder without a value makes the Go code index out of range. Here that case is a precondition
  (`ParamsBound`, `RouteParamsBound`, `ModelParamsBound`).
- Starting routes on a service that has no router dereferences a nil router in the Go code. Here that case is a
  precondition of `Services.Service.StartRoutes` (`router != null`); `Start` meets it by calling `createRouter` first.

## Model

| member | source | states |
|---|---|---|
| `Routes.RouteContract.Method` | route.go:135-140 | the declared method when non-empty, otherwise GET; never empty |
| `Routes.RouteContract.DeclaredDataType` | route.go:142-147 | the configured body type when set, otherwise Binary; never unset |
| `Routes.RouteContract.UserValueKey` | route.go:149-154 | the configured key when non-empty, otherwise "data" |
| `Text.IndexOf` | route.go:130 | the least position where the pattern occurs, or none when it occurs nowhere |
| `Text.ReplaceFirstAt` | route.go:130 | at the first occurrence the pattern is swapped for the replacement, and the text before and after is kept |
| `Text.ReplaceFirstAbsent` | route.go:130 | with no occurrence the URI is returned unchanged |
| `Placeholders.AlphaNumEnd` | route.go:36 | a placeholder name is the longest run of `[a-zA-Z0-9]` after the ':' |
| `Placeholders.TokenizeCovers` | route.go:36 | cutting the path into literals and placeholders loses and adds nothing |
| `Placeholders.TokenizeWellFormed` | route.go:36 | the cut is leftmost-longest: no literal ':' is left, and no name could be extended |
| `Placeholders.TokenizeUnique` | route.go:36 | any well-formed cut of the path is the scanner's cut, so the matches are exactly the pattern's matches |
| `Placeholders.RenderAppend` | route.go:239-245 | substitution works piece by piece: each match becomes `m[name][0]` and literals stay |
| `Placeholders.NoPlaceholderUnchanged` | route.go:128 | a path without ':' needs no binding and is left unchanged |
| `Placeholders.IdentitySubstitution` | route.go:239-245 | binding every name to its own placeholder text gives back the path |
| `Placeholders.NoMatchLeft` | route.go:128 | when no bound value contains ':', no ':' is left in the result |
| `Placeholders.TwoParamsTokens` | route.go:36 | "/:id/:doc" is scanned as '/', id, '/', doc |
| `Placeholders.TwoParamsExample` | route.go:128 | "/:id/:doc" with id=42 and doc=7 becomes "/42/7" |
| `Routes.RouteParamsUri` | route.go:119-133 | no route parameters: URI unchanged; a conversion error is returned with the URI unchanged; otherwise only the first occurrence of the raw path is replaced by the substituted path, and the URI is unchanged if the path does not occur |
| `Routes.PrepareRouteParams` | route.go:119-133 | the request's URI and the returned error are those of `RouteParamsUri`; method, headers and body are untouched |
| `Routes.QueryParamsUri` | route.go:103-117 | no query parameters: URI unchanged; otherwise exactly the old URI + "?" + the encoded parameters |
| `Routes.QueryAppendKeepsExistingQuery` | route.go:111-115 | a URI that already has a '?' ends up with two |
| `Routes.PrepareQueryParams` | route.go:103-117 | the request's URI and the returned error are those of `QueryParamsUri`; nothing else changes |
| `Routes.EffectiveDataType` | route.go:74-77 | the per-request type when set, otherwise the route's declared type |
| `Routes.EncodeBody` | route.go:79-100 | a Content-Type is written exactly when a body is; JSON and Form carry their own Content-Type, and every other written type carries Binary's; MultipartForm writes nothing and returns no error; a failed Form conversion writes nothing and returns the error |
| `Routes.UnknownTypesEncodeAsBinary` | route.go:94-98 | every type other than JSON, Form and MultipartForm is sent exactly as Binary |
| `Routes.PrepareRequest` | route.go:59-101 | sets the method to the route's method; applies route parameters, then query parameters; an error from either returns before any header or body is written; otherwise the header and body are those of `EncodeBody` for the effective type |
| `Routes.Route.AddServiceClient` | route.go:195-200 | appends exactly one client at the end and keeps the earlier ones |
| `Routes.DefaultDecode` | route.go:207-237 | halts exactly when the body is non-empty and decoding fails, and then sets 400 and appends the error text; an empty body, or a Content-Type other than JSON and Binary, passes the context on unchanged; decoded members are stored under the user-value key |
| `Routes.DefaultDataHandler` | route.go:207-237 | the context it leaves, and whether it calls `next`, are those of `DefaultDecode` |
| `Routes.ChainDataStage` | route.go:184-193 | the composed chain runs the route's own middlewares and handler, and its data stage is the route's custom data handler when one is set, otherwise the default decoder |
| `Routes.Serve` | route.go:184-193 | running the composed handler leaves the context and the trace that `RunFrom` gives |
| `Routes.RunFollowsDeclaredOrder` | route.go:184-193 | the stages that run are always a non-empty prefix of: the middlewares in order, the data stage, the handler |
| `Routes.TerminalRunsLast` | route.go:184-193 | if the handler runs, every middleware and the data stage ran before it, in order |
| `Routes.TagsWriteInOrder` | route.go:184-193 | middlewares that each write a tag write all tags in declaration order before the data stage |
| `Routes.DecodeFailureStopsChain` | route.go:207-237 | after the tags, a decode failure leaves status 400 and the tags followed by the error text, and the handler never runs |
| `Routes.RegistrationFor` | route.go:169-182 | a registration exists exactly for DELETE, GET, POST and PUT; it is `prefix + path` under `method()` with the composed chain |
| `Routes.StartRoute` | route.go:169-182 | the router gains exactly that registration, or nothing |
| `Routes.Router.Handle` | route.go:174-180 | a registration is appended and earlier ones are kept |
| `RouteExamples.EchoOutput` | route_test.go:22-35 | the test handler prints the path and then Foo and Bar of the decoded map; FooBar is absent |
| `RouteExamples.OrderScenarioRun` | route_test.go:128-167 | the composed chain answers "/t1/t2/t3/middlewares[Foo]=foo[Bar]=bar" |
| `RouteExamples.MiddlewareDataHandlerOrder` | route_test.go:128-167 | a POST route is registered, a request is prepared for a Binary body {Foo, Bar} and served, and the answer is "/t1/t2/t3/middlewares[Foo]=foo[Bar]=bar" |
| `Data.NewDataContract` | data.go:60-62 | the given type under the key "data" |
| `Data.UserValueKey` | data.go:201-206 | the contract's key when non-empty, otherwise "data" |
| `Data.ModelToMap` | data.go:170-199 | a failed JSON marshal gives an empty map and that error; a failed unmarshal gives an empty map and the unmarshal's error; a non-empty map means both the marshal and the unmarshal succeeded |
| `Data.DataModelToMap` | data.go:170-199 | the map and error are those of `ModelToMap` |
| `Data.AddField` | data.go:181-196 | one field appends its entries under its key and records its last conversion error |
| `Data.StringsAppend` | data.go:186-193 | string elements are collected in list order |
| `Data.StringsOfStringList` | data.go:186-193 | a list of strings yields exactly its elements, in order |
| `Data.LastNonStringNone` | data.go:186-193 | a list records no error exactly when all its elements are strings |
| `Data.LastNonStringIsLast` | data.go:186-193 | the element a list's error names is its last non-string element |
| `Data.FlattenKeys` | data.go:181-184 | every decoded field is a key of the result, and nothing else is |
| `Data.FlattenEntry` | data.go:185-196 | with distinct keys, a list field's entry is its strings in order, and a scalar's entry is exactly its printed form |
| `Data.FlattenNoError` | data.go:186-198 | no error is returned exactly when every list field holds only strings |
| `Data.FlattenErrorIsLast` | data.go:186-198 | the pass goes on past a failure, and the error returned is the one for the last failing element of the last failing field |
| `Data.ConversionErrorKeepsFields` | data.go:170-198 | once the codec steps succeed, every field is in the returned map even if a conversion failed |
| `Data.ReceiveOutcome` | data.go:76-111 | only Binary and JSON with a non-empty body decode, with msgpack or JSON respectively, and that decoder's error is returned; when the decoder leaves a handler, the payload becomes the decoded one and is stored under the user-value key, otherwise payload and user values are untouched; every other case returns nil with nothing changed |
| `Data.ReceiveRequestFn` | data.go:76-111 | the payload, user values and error it leaves are those of `ReceiveOutcome`; nothing else in the context changes |
| `Data.ReceiveRequest` | data.go:64-74 | on an error: status 400, the error text appended and `next` never called; otherwise `next` is called exactly once on the decoded context |
| `Data.PrepareRouteRequest` | data.go:115-160 | sets the route's declared method and no header; Binary and JSON set the codec's body and error; Form sets the encoded flattened body unless flattening failed; RouteParams replaces the first occurrence of the path in the URI; QueryParams appends "?" + encoded; other types do nothing |
| `Services.ServiceConfig.Protocol` | service.go:138-143 | the configured protocol, otherwise "http" |
| `Services.ServiceConfig.Host` | service.go:145-150 | the configured host, otherwise "localhost" |
| `Services.ServiceConfig.Port` | service.go:152-157 | "8080" for port 0; otherwise the decimal port without leading zeros, reading back as the port (after a '-' exactly when it is negative); never empty and never starting with ':' |
| `Text.DigitsNoLeadingZero` | service.go:154 | `%d` writes a leading '0' only for zero itself |
| `Text.DecimalRoundTrip` | service.go:154 | `%d` writes '-' exactly for a negative number, "0" for zero, and digits without leading zeros that read back as the number's magnitude |
| `Services.ServiceConfig.Domain` | service.go:159-164 | the configured domain, otherwise "/" |
| `Services.ServiceConfig.Version` | service.go:166-171 | the configured version, otherwise "v0" |
| `Services.Service.Address` | service.go:108-117 | host, then ':', then port; the separator is always written because the port never starts with ':' |
| `Services.Rooted` | service.go:121-128 | starts with '/', ends with its argument, and adds the '/' only when it is missing |
| `Services.Service.Suffix` | service.go:119-130 | the rooted domain followed by the rooted version |
| `Services.SuffixShape` | service.go:119-130 | the prefix starts with '/' and ends with the version |
| `Services.DefaultSuffix` | service.go:119-130 | with the defaults the prefix is "//v0" |
| `Services.Service.CreateRouter` | service.go:86-90 | creates an empty router only when there is none, so a second call changes nothing |
| `Services.Service.StartRoutes` | service.go:92-96 | the router gains each route's registration in route order, each under `suffix()` |
| `Services.RoutesRegisteredInOrder` | service.go:92-96 | when all methods are known, registration i is route i's path under the prefix, with its composed chain |
| `Contracts.ServiceContractByLabel` | contract.go:7-14 | returns something exactly when some service has the label; that result has the label and equals the first such service in order |

## Left out

- Listening, serving and stopping (`Service.Start`, `startListening`, `Stop`, `Status`, `apiHandler`) are left out. They are TCP and logging I/O.
- client.go's `SendRequest` is left out. It is a network call; `RouteContractByLabel` and `RouteUrl` are not part of this model.
- The internals of JSON, msgpack, `mapstructure.Decode`, `url.Values.Encode` and `dataToUrlValues` are not modelled. They are given functions, so no byte-level round trip is claimed.
- The router's own path matching is not modelled. Neither its panic on a duplicate path nor its handling of paths that do not start with '/' is modelled.
- fasthttp's normalisation of a URI when it is set and read back is not modelled. The URI is kept as the string written.
- A middleware is modelled only by what it does before calling `next`. Work done after `next` returns is not modelled.
- Go's `fmt.Sprint` is modelled for strings, booleans, whole numbers, lists and maps. Map members print in the order given rather than sorted by key.
- `Json.JsonValue.JNumber` stands only for whole numbers of magnitude below 10^6. `json.Unmarshal` into `map[string]interface{}` makes every JSON number a `float64`, and `fmt.Sprint` prints a `float64` of magnitude 10^6 or more in exponent form (`1234567` becomes `"1.234567e+06"`) and keeps the fraction of a non-integer. Those numbers are not modelled, so the Form bodies and route-parameter URIs built from them are not either.
- `Data.FlattenErrorIsLast` holds for the order a run visits the fields, not for one fixed order. Go randomises the order of `range` over a map on every call, so when two or more fields fail, which field's error `dataModelToMap` returns is not determined by the payload. The model takes the order from the decoder, so it is deterministic where Go is not; every lemma about `Flatten` is stated for any order.
- The text of a conversion error uses the same printer for `%+v` and `%s`. Go's `%s` on a list of non-strings prints differently.
- `Data.ReceiveOutcome` is weaker than the code in one respect. A decoder writes into the whole handler, so Go can also overwrite the handler's `Type` and `Key`. The model lets the decoder change only the payload.
- The custom-data-handler and form-data scenarios of route_test.go are not replayed. Form parsing on the server side belongs to fasthttp.

/**
 * service.go: a service's configuration defaults, the listening address and
 * the URL prefix its routes are registered under, router creation and the
 * registration of every route.
 */
module Services {
  import opened Text
  import opened Routes

  const DefaultHost: string := "localhost"
  const DefaultPort: string := "8080"
  const DefaultDomain: string := "/"
  const DefaultVersion: string := "v0"
  const HTTP: string := "http"
  const HTTPS: string := "https"

  /** The configuration fields of a service; `name` holds Go's `Label` (`label` is reserved in Dafny). */
  datatype ServiceConfig = ServiceConfig(
    name: string,
    description: string,
    protocol: string,
    host: string,
    domain: string,
    port: int,
    version: string)
  {
    function Protocol(): (p: string)
      ensures p != ""
      ensures protocol != "" ==> p == protocol
      ensures protocol == "" ==> p == "http"
    {
      if protocol != "" then protocol else HTTP
    }

    function Host(): (h: string)
      ensures h != ""
      ensures host != "" ==> h == host
      ensures host == "" ==> h == "localhost"
    {
      if host != "" then host else DefaultHost
    }

    /**
     * The decimal port, "8080" when the port is 0; it never starts with ':'.
     * A non-zero port is written without leading zeros and reads back as the
     * port, after a '-' when it is negative.
     */
    function Port(): (p: string)
      ensures |p| > 0 && p[0] != ':'
      ensures port == 0 ==> p == "8080"
      ensures port > 0 ==> (forall i :: 0 <= i < |p| ==> IsDigit(p[i]))
      ensures port > 0 ==> p[0] != '0' && DigitsValue(p) == port
      ensures forall i :: 0 < i < |p| ==> IsDigit(p[i])
      ensures port < 0 ==> p[0] == '-' && |p| > 1 && p[1] != '0' && DigitsValue(p[1..]) == -port
    {
      if port != 0 then DecimalRoundTrip(port); Decimal(port) else DefaultPort
    }

    function Domain(): (d: string)
      ensures d != ""
      ensures domain != "" ==> d == domain
      ensures domain == "" ==> d == "/"
    {
      if domain != "" then domain else DefaultDomain
    }

    function Version(): (v: string)
      ensures v != ""
      ensures version != "" ==> v == version
      ensures version == "" ==> v == "v0"
    {
      if version != "" then version else DefaultVersion
    }
  }

  /** `x` with a '/' put in front unless it already starts with one. */
  function Rooted(x: string): (r: string)
    requires x != ""
    ensures |r| > 0 && r[0] == '/'
    ensures |r| >= |x| && r[|r| - |x|..] == x
    ensures x[0] == '/' ==> r == x
    ensures x[0] != '/' ==> |r| == |x| + 1
  {
    if x[0] == '/' then x else "/" + x
  }

  /** What `suffix()` builds: the rooted domain followed by the rooted version. */
  function SuffixOf(c: ServiceConfig): string
  {
    Rooted(c.Domain()) + Rooted(c.Version())
  }

  /** The prefix always starts with '/' and ends with the version. */
  lemma SuffixShape(c: ServiceConfig)
    ensures var s := SuffixOf(c);
      |s| > |c.Version()| && s[0] == '/' && s[|s| - |c.Version()|..] == c.Version()
  {
    var s := SuffixOf(c);
    var d, v := Rooted(c.Domain()), Rooted(c.Version());
    assert s[|s| - |c.Version()|..] == v[|v| - |c.Version()|..];
  }

  /** With every field left empty the prefix is "//v0": the default domain "/" is kept, then "/v0". */
  lemma DefaultSuffix(c: ServiceConfig)
    requires c.domain == "" && c.version == ""
    ensures SuffixOf(c) == "//v0"
  {
    assert Rooted("/") == "/";
    assert Rooted("v0") == "/v0";
  }

  /** What `startRoutes` registers: each route's registration, in route order. */
  function RegistrationsFor(routes: seq<Route>, prefix: string): seq<Registration>
    reads routes
  {
    if routes == [] then []
    else
      var n := |routes| - 1;
      RegistrationsFor(routes[..n], prefix) + Registered(RegistrationFor(routes[n], prefix))
  }

  /** One turn of the loop of `startRoutes`. */
  method StartRouteStep(rs: seq<Route>, i: nat, r: Router, prefix: string, ghost start: seq<Registration>)
    requires i < |rs|
    requires r.registrations == start + RegistrationsFor(rs[..i], prefix)
    modifies r
    ensures r.registrations == start + RegistrationsFor(rs[..i + 1], prefix)
  {
    RegistrationsForSnoc(rs, i, prefix);
    StartRoute(rs[i], r, prefix);
  }

  lemma RegistrationsForSnoc(routes: seq<Route>, i: nat, prefix: string)
    requires i < |routes|
    ensures RegistrationsFor(routes[..i + 1], prefix)
         == RegistrationsFor(routes[..i], prefix) + Registered(RegistrationFor(routes[i], prefix))
  {
    assert routes[..i + 1][..i] == routes[..i];
  }

  /** Routes with a known method are registered one each, in order, under the prefix. */
  lemma {:induction false} RoutesRegisteredInOrder(routes: seq<Route>, prefix: string)
    requires forall i :: 0 <= i < |routes| ==> routes[i].contract.Method() in {DELETE, GET, POST, PUT}
    ensures |RegistrationsFor(routes, prefix)| == |routes|
    ensures forall i :: 0 <= i < |routes| ==>
      RegistrationsFor(routes, prefix)[i]
        == Registration(routes[i].contract.Method(), prefix + routes[i].contract.path, StartMiddlewares(routes[i]))
  {
    if routes != [] {
      var n := |routes| - 1;
      assert forall i :: 0 <= i < n ==> routes[..n][i] == routes[i];
      RoutesRegisteredInOrder(routes[..n], prefix);
    }
  }

  class Service {
    const config: ServiceConfig
    var routes: seq<Route>
    var router: Router?

    constructor (config: ServiceConfig, routes: seq<Route>)
      ensures this.config == config && this.routes == routes && router == null
    {
      this.config := config;
      this.routes := routes;
      router := null;
    }

    /** `address()`: host, ':' and port; the port never starts with ':', so the separator is always written. */
    method Address() returns (a: string)
      ensures a == config.Host() + ":" + config.Port()
      ensures |a| > |config.Host()| && a[|config.Host()|] == ':'
    {
      var buffer := "";
      buffer := buffer + config.Host();
      if config.Port()[0] != ':' {
        buffer := buffer + ":";
      }
      buffer := buffer + config.Port();
      return buffer;
    }

    /** `suffix()`: a '/' before the domain and before the version, each only if missing. */
    method Suffix() returns (s: string)
      ensures s == SuffixOf(config)
    {
      var domain, version := config.Domain(), config.Version();
      var buffer := "";
      if domain[0] != '/' {
        buffer := buffer + "/";
      }
      buffer := buffer + domain;
      assert buffer == Rooted(domain);
      if version[0] != '/' {
        buffer := buffer + "/";
      }
      buffer := buffer + version;
      return buffer;
    }

    /** `createRouter`: a router is created only when there is none, so a second call changes nothing. */
    method CreateRouter()
      modifies this`router
      ensures old(router) != null ==> router == old(router)
      ensures old(router) == null ==> router != null && fresh(router) && router.registrations == []
    {
      if router == null {
        router := new Router();
      }
    }

    /** `startRoutes`: every route is started on the router, in order, under `suffix()`. */
    method StartRoutes()
      requires router != null
      modifies router
      ensures router.registrations == old(router.registrations) + RegistrationsFor(routes, SuffixOf(config))
    {
      var rs := routes;
      var r := router;
      ghost var start := r.registrations;
      ghost var suffix := SuffixOf(config);
      var i := 0;
      while i < |rs|
        invariant 0 <= i <= |rs|
        invariant r.registrations == start + RegistrationsFor(rs[..i], suffix)
      {
        var prefix := Suffix();
        StartRouteStep(rs, i, r, prefix, start);
        i := i + 1;
      }
      assert rs[..i] == rs;
    }
  }
}

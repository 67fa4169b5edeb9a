/**
 * Extension discovery of the dashboard's endpoints package: services that the
 * cluster lists under the extension label become POST routes, each bound to an
 * Extension whose handler forwards to http://<name>:<port>/.
 *
 * The cluster's service list is an input (a Result); the routing library is
 * modelled by two small classes, WebService and Container, that record what
 * is added to them.
 */
module Endpoints {
  import opened Wrappers
  import Strconv

  /**
   * Label selector of the service list call. Documentation only: the call
   * and its filtering are an input here, so nothing refers to it.
   */
  const ExtensionLabel: string := "tekton-dashboard-extension=true"
  /** Annotation key whose value is the extension's route path. */
  const UrlKey: string := "tekton-dashboard-endpoints"
  const MimeJson: string := "application/json"

  /** Kubernetes declares a service port as a 32-bit signed integer. */
  type Int32 = x: int | -0x8000_0000 <= x < 0x8000_0000

  /** The parts of a listed service that discovery reads. */
  datatype Service = Service(name: string, annotations: map<string, string>, ports: seq<Int32>)

  /** Why the service list call failed. */
  datatype ListError = ListError(reason: string)

  datatype Extension = Extension(name: string, url: string, port: string)

  /** The only HTTP method discovery registers routes under. */
  datatype HttpMethod = POST

  /** A registered route; its handler is HandleExtension bound to `handler`. */
  datatype Route = Route(verb: HttpMethod, path: string, handler: Extension)

  predicate IsExtension(svc: Service) {
    UrlKey in svc.annotations
  }

  /** getPort can be applied to the service wherever the code applies it. */
  predicate HasPortIfExtension(svc: Service) {
    IsExtension(svc) ==> |svc.ports| > 0
  }

  /** What the code needs of the listing: every annotated service declares a port. */
  predicate PortsDeclared(svcs: seq<Service>) {
    forall j :: 0 <= j < |svcs| ==> HasPortIfExtension(svcs[j])
  }

  // ---------------------------------------------------------------------------
  // getPort

  /** The first declared port, rendered in decimal; it parses back to that port. */
  function GetPort(svc: Service): (port: string)
    requires |svc.ports| > 0
    ensures Strconv.ParseDecimal(port) == Some(svc.ports[0])
    ensures Strconv.Canonical(port)
  {
    Strconv.ItoaRoundTrip(svc.ports[0]);
    Strconv.Itoa(svc.ports[0])
  }

  // ---------------------------------------------------------------------------
  // HandleExtension: the proxy target

  /** The target handed to the reverse proxy: "http://", then name:port, then "/". */
  function TargetUrl(ext: Extension): (u: string)
    ensures |u| >= 9 && u[..7] == "http://" && u[|u| - 1] == '/'
    ensures ':' !in ext.port ==> SplitTarget(u) == Some((ext.name, ext.port))
  {
    TargetRoundTrip(ext.name, ext.port);
    "http://" + ext.name + ":" + ext.port + "/"
  }

  /** The last position of c in s, if any. */
  function LastIndexOf(s: string, c: char): (r: Option<nat>)
    ensures r.Some? ==> r.value < |s| && s[r.value] == c && c !in s[r.value + 1..]
    ensures r.None? ==> c !in s
    decreases |s|
  {
    if s == [] then None
    else if s[|s| - 1] == c then Some(|s| - 1)
    else
      var r := LastIndexOf(s[..|s| - 1], c);
      assert r.Some? ==> s[r.value + 1..] == s[..|s| - 1][r.value + 1..] + [s[|s| - 1]];
      assert s == s[..|s| - 1] + [s[|s| - 1]];
      r
  }

  /**
   * Reads name and port back out of a target "http://name:port/": the text
   * between "http://" and the final "/" is split at its last ':'. This inverts
   * the template; it is the authority split of section 3.2 of RFC 3986 only
   * when the name is a host name (no '/', '?', '#' or '@').
   */
  function SplitTarget(u: string): Option<(string, string)> {
    if |u| >= 8 && u[..7] == "http://" && u[|u| - 1] == '/' then
      var hostPort := u[7..|u| - 1];
      match LastIndexOf(hostPort, ':')
      case None => None
      case Some(k) => Some((hostPort[..k], hostPort[k + 1..]))
    else None
  }

  lemma TargetRoundTrip(name: string, port: string)
    ensures ':' !in port ==> SplitTarget("http://" + name + ":" + port + "/") == Some((name, port))
  {
    if ':' !in port {
      var u := "http://" + name + ":" + port + "/";
      var hostPort := name + ":" + port;
      assert u[..7] == "http://";
      assert u[7..|u| - 1] == hostPort;
      assert hostPort[|name|] == ':';
      var k := LastIndexOf(hostPort, ':').value;
      assert hostPort[..k] == name && hostPort[k + 1..] == port;
    }
  }

  // ---------------------------------------------------------------------------
  // RegisterExtension: what discovery registers

  /** The Extension built for an annotated service. */
  function ExtensionOf(svc: Service): (ext: Extension)
    requires IsExtension(svc) && |svc.ports| > 0
    ensures ext.name == svc.name && ext.url == svc.annotations[UrlKey]
    ensures Strconv.ParseDecimal(ext.port) == Some(svc.ports[0])
    ensures Strconv.Canonical(ext.port)
  {
    Extension(svc.name, svc.annotations[UrlKey], GetPort(svc))
  }

  /** The route an annotated service yields: POST at the annotation value, bound to its own Extension. */
  function RouteOf(svc: Service): Route
    requires IsExtension(svc) && |svc.ports| > 0
  {
    Route(POST, svc.annotations[UrlKey], ExtensionOf(svc))
  }

  /** What the scan of one service's annotations registers. */
  function ServiceRoutes(svc: Service): seq<Route>
    requires IsExtension(svc) ==> |svc.ports| > 0
  {
    if IsExtension(svc) then [RouteOf(svc)] else []
  }

  /** The routes discovery registers for a listing, in the order it registers them. */
  function ExtensionRoutes(svcs: seq<Service>): (routes: seq<Route>)
    requires PortsDeclared(svcs)
    ensures |routes| <= |svcs|
    decreases |svcs|
  {
    if svcs == [] then []
    else ExtensionRoutes(svcs[..|svcs| - 1]) + ServiceRoutes(svcs[|svcs| - 1])
  }

  // Reference definition: filter the annotated services, then map each to its route.

  /** The annotated services of a listing, in listing order. */
  function Extensions(svcs: seq<Service>): (exts: seq<Service>)
    ensures |exts| <= |svcs|
    ensures forall k :: 0 <= k < |exts| ==> IsExtension(exts[k]) && exts[k] in svcs
    decreases |svcs|
  {
    if svcs == [] then []
    else if IsExtension(svcs[0]) then [svcs[0]] + Extensions(svcs[1..])
    else Extensions(svcs[1..])
  }

  function RoutesOf(exts: seq<Service>): (routes: seq<Route>)
    requires forall k :: 0 <= k < |exts| ==> IsExtension(exts[k]) && |exts[k].ports| > 0
    ensures |routes| == |exts|
  {
    seq(|exts|, k requires 0 <= k < |exts| => RouteOf(exts[k]))
  }

  lemma {:induction false} ExtensionsAppend(svcs: seq<Service>, svc: Service)
    ensures Extensions(svcs + [svc]) == Extensions(svcs) + (if IsExtension(svc) then [svc] else [])
    decreases |svcs|
  {
    if svcs != [] {
      assert (svcs + [svc])[1..] == svcs[1..] + [svc];
      ExtensionsAppend(svcs[1..], svc);
    }
  }

  lemma PortsDeclaredPrefix(svcs: seq<Service>, n: nat)
    requires PortsDeclared(svcs) && n <= |svcs|
    ensures PortsDeclared(svcs[..n])
  {
  }

  /**
   * Discovery registers exactly the routes of the annotated services, one
   * each, in listing order.
   */
  lemma {:induction false} RoutesAreFilterMap(svcs: seq<Service>)
    requires PortsDeclared(svcs)
    ensures forall k :: 0 <= k < |Extensions(svcs)| ==> |Extensions(svcs)[k].ports| > 0
    ensures ExtensionRoutes(svcs) == RoutesOf(Extensions(svcs))
    decreases |svcs|
  {
    if svcs != [] {
      var init, last := svcs[..|svcs| - 1], svcs[|svcs| - 1];
      assert svcs == init + [last];
      PortsDeclaredPrefix(svcs, |svcs| - 1);
      RoutesAreFilterMap(init);
      ExtensionsAppend(init, last);
      forall k | 0 <= k < |Extensions(svcs)|
        ensures |Extensions(svcs)[k].ports| > 0
      {
        var j :| 0 <= j < |svcs| && svcs[j] == Extensions(svcs)[k];
      }
    }
  }

  /** The number of routes equals the number of annotated services. */
  lemma RouteCount(svcs: seq<Service>)
    requires PortsDeclared(svcs)
    ensures |ExtensionRoutes(svcs)| == |Extensions(svcs)|
  {
    RoutesAreFilterMap(svcs);
  }

  lemma PortsDeclaredConcat(a: seq<Service>, b: seq<Service>)
    ensures PortsDeclared(a + b) <==> PortsDeclared(a) && PortsDeclared(b)
  {
    assert forall j :: 0 <= j < |a| ==> a[j] == (a + b)[j];
    assert forall j :: 0 <= j < |b| ==> b[j] == (a + b)[|a| + j];
  }

  lemma {:induction false} RoutesAppend(a: seq<Service>, b: seq<Service>)
    requires PortsDeclared(a) && PortsDeclared(b)
    ensures PortsDeclared(a + b)
    ensures ExtensionRoutes(a + b) == ExtensionRoutes(a) + ExtensionRoutes(b)
    decreases |b|
  {
    PortsDeclaredConcat(a, b);
    if b != [] {
      var init := b[..|b| - 1];
      PortsDeclaredPrefix(b, |b| - 1);
      assert (a + b)[..|a + b| - 1] == a + init;
      RoutesAppend(a, init);
    } else {
      assert a + b == a;
    }
  }

  lemma SingleServiceRoutes(svc: Service)
    requires HasPortIfExtension(svc)
    ensures PortsDeclared([svc]) && ExtensionRoutes([svc]) == ServiceRoutes(svc)
  {
    assert [svc][..0] == [];
  }

  lemma SliceAround<T>(s: seq<T>, j: nat)
    requires j < |s|
    ensures s == s[..j] + [s[j]] + s[j + 1..]
  {
  }

  lemma RoutesAround(before: seq<Service>, svc: Service, after: seq<Service>)
    requires PortsDeclared(before) && HasPortIfExtension(svc) && PortsDeclared(after)
    ensures PortsDeclared(before + [svc] + after)
    ensures ExtensionRoutes(before + [svc] + after) ==
      ExtensionRoutes(before) + ServiceRoutes(svc) + ExtensionRoutes(after)
  {
    SingleServiceRoutes(svc);
    RoutesAppend(before, [svc]);
    RoutesAppend(before + [svc], after);
  }

  /**
   * Service j of the listing contributes exactly ServiceRoutes(svcs[j]) at its
   * own place: one route, bound to its own Extension, if it carries the
   * annotation, and nothing otherwise; the routes of earlier services come
   * before it and those of later services after it.
   */
  lemma RouteOfServiceAt(svcs: seq<Service>, j: nat)
    requires PortsDeclared(svcs) && j < |svcs|
    ensures PortsDeclared(svcs[..j]) && PortsDeclared(svcs[j + 1..])
    ensures ExtensionRoutes(svcs) ==
      ExtensionRoutes(svcs[..j]) + ServiceRoutes(svcs[j]) + ExtensionRoutes(svcs[j + 1..])
  {
    SliceAround(svcs, j);
    PortsDeclaredConcat(svcs[..j] + [svcs[j]], svcs[j + 1..]);
    PortsDeclaredConcat(svcs[..j], [svcs[j]]);
    RoutesAround(svcs[..j], svcs[j], svcs[j + 1..]);
  }

  /** Every registered route was yielded by an annotated service of the listing. */
  lemma {:induction false} ServiceOfRoute(svcs: seq<Service>, r: Route)
    requires PortsDeclared(svcs) && r in ExtensionRoutes(svcs)
    ensures exists j :: 0 <= j < |svcs| && IsExtension(svcs[j]) && r == RouteOf(svcs[j])
    decreases |svcs|
  {
    var n := |svcs| - 1;
    var init := svcs[..n];
    PortsDeclaredPrefix(svcs, n);
    if r in ExtensionRoutes(init) {
      ServiceOfRoute(init, r);
      var j :| 0 <= j < |init| && IsExtension(init[j]) && r == RouteOf(init[j]);
      assert init[j] == svcs[j];
    } else {
      assert IsExtension(svcs[n]) && r == RouteOf(svcs[n]);
    }
  }

  /** Every annotated service of the listing has its route registered. */
  lemma RouteOfService(svcs: seq<Service>, j: nat)
    requires PortsDeclared(svcs) && j < |svcs| && IsExtension(svcs[j])
    ensures RouteOf(svcs[j]) in ExtensionRoutes(svcs)
  {
    RouteOfServiceAt(svcs, j);
    assert ExtensionRoutes(svcs)[|ExtensionRoutes(svcs[..j])|] == RouteOf(svcs[j]);
  }

  /** A route is registered if and only if some annotated service yields it. */
  lemma RouteMembership(svcs: seq<Service>, r: Route)
    requires PortsDeclared(svcs)
    ensures r in ExtensionRoutes(svcs) <==>
      exists j :: 0 <= j < |svcs| && IsExtension(svcs[j]) && r == RouteOf(svcs[j])
  {
    if r in ExtensionRoutes(svcs) {
      ServiceOfRoute(svcs, r);
    }
    if exists j :: 0 <= j < |svcs| && IsExtension(svcs[j]) && r == RouteOf(svcs[j]) {
      var j :| 0 <= j < |svcs| && IsExtension(svcs[j]) && r == RouteOf(svcs[j]);
      RouteOfService(svcs, j);
    }
  }

  /**
   * The handler of the route an annotated service yields forwards to that
   * service: the target reads back as its own name and its first port.
   */
  lemma RouteTarget(svc: Service)
    requires IsExtension(svc) && |svc.ports| > 0
    ensures TargetUrl(RouteOf(svc).handler) == "http://" + svc.name + ":" + Strconv.Itoa(svc.ports[0]) + "/"
    ensures SplitTarget(TargetUrl(RouteOf(svc).handler)) == Some((svc.name, GetPort(svc)))
    ensures Strconv.ParseDecimal(GetPort(svc)) == Some(svc.ports[0])
  {
  }

  // ---------------------------------------------------------------------------
  // The routing library, as far as discovery uses it

  /** A go-restful WebService: a root path, its media types and the routes added so far. */
  class WebService {
    var rootPath: string
    var consumes: string
    var produces: string
    var routes: seq<Route>

    /** new(restful.WebService).Path(path).Consumes(MIME_JSON).Produces(MIME_JSON) */
    constructor (path: string)
      ensures rootPath == path && consumes == MimeJson && produces == MimeJson
      ensures routes == []
    {
      rootPath, consumes, produces := path, MimeJson, MimeJson;
      routes := [];
    }

    /** ws.Route(...): appends one route. */
    method AddRoute(r: Route)
      modifies this
      ensures routes == old(routes) + [r]
      ensures rootPath == old(rootPath) && consumes == old(consumes) && produces == old(produces)
    {
      routes := routes + [r];
    }
  }

  /** A go-restful Container: the web services added to it, in order. */
  class Container {
    var webServices: seq<WebService>

    constructor ()
      ensures webServices == []
    {
      webServices := [];
    }

    method Add(ws: WebService)
      modifies this
      ensures webServices == old(webServices) + [ws]
    {
      webServices := webServices + [ws];
    }
  }

  /**
   * RegisterExtension: on a failed listing, nothing is added to the
   * container. Otherwise one fresh web service rooted at "/" is added whose
   * routes are ExtensionRoutes of the listing.
   */
  method RegisterExtension(container: Container, listed: Result<seq<Service>, ListError>)
    requires listed.Success? ==> PortsDeclared(listed.value)
    modifies container
    ensures listed.Failure? ==> container.webServices == old(container.webServices)
    ensures listed.Success? ==>
      |container.webServices| == |old(container.webServices)| + 1 &&
      container.webServices[..|old(container.webServices)|] == old(container.webServices) &&
      var ws := container.webServices[|old(container.webServices)|];
      fresh(ws) && ws.rootPath == "/" && ws.consumes == MimeJson && ws.produces == MimeJson &&
      ws.routes == ExtensionRoutes(listed.value)
  {
    if listed.Failure? {
      return;
    }
    var svcs := listed.value;
    var ws := new WebService("/");
    for i := 0 to |svcs|
      invariant PortsDeclared(svcs[..i])
      invariant ws.rootPath == "/" && ws.consumes == MimeJson && ws.produces == MimeJson
      invariant ws.routes == ExtensionRoutes(svcs[..i])
      invariant container.webServices == old(container.webServices)
    {
      var svc := svcs[i];
      assert svcs[..i + 1][..i] == svcs[..i];
      PortsDeclaredPrefix(svcs, i + 1);
      // Go ranges over the annotation map in no fixed order; only the key
      // UrlKey matches, so the order does not change what is registered.
      var keys := svc.annotations.Keys;
      while keys != {}
        invariant keys <= svc.annotations.Keys
        invariant ws.rootPath == "/" && ws.consumes == MimeJson && ws.produces == MimeJson
        invariant ws.routes == ExtensionRoutes(svcs[..i]) +
          (if IsExtension(svc) && UrlKey !in keys then [RouteOf(svc)] else [])
        invariant container.webServices == old(container.webServices)
        decreases keys
      {
        var key :| key in keys;
        if key == UrlKey {
          var url := svc.annotations[key];
          var ext := Extension(svc.name, url, GetPort(svc));
          ws.AddRoute(Route(POST, url, ext));
        }
        keys := keys - {key};
      }
    }
    assert svcs[..|svcs|] == svcs;
    container.Add(ws);
  }
}

# Tekton dashboard: extension discovery, modelled in Dafny

The dashboard backend exposes "extensions": services in the dashboard's
namespace that carry the label `tekton-dashboard-extension=true`. When the
backend starts, `RegisterExtension` lists these services. Every service whose
annotations hold the key `tekton-dashboard-endpoints` yields one
`POST <annotation value>` route. The route's handler, `HandleExtension`, is
bound to an `Extension{Name, URL, Port}` built for that service. It forwards
each request to `http://<Name>:<Port>/`. The port is the service's first
declared port, rendered in decimal by `getPort`.

This project models that mapping:

- `wrappers.dfy`: `Option` and `Result`.
- `strconv.dfy`: module `Strconv`. `Itoa` models Go's `strconv.Itoa`.
  `ParseDecimal` is a reference parser for decimal integers. The file proves
  that parsing `Itoa(i)` gives `i`, and that a canonical decimal string (no
  leading zeros, no "-0") that parses to `i` is exactly `Itoa(i)`. The parser
  also accepts non-canonical strings such as "007", which `Itoa` never
  produces.
- `endpoints.dfy`: module `Endpoints`. It holds the services, extensions and
  routes as datatypes, and `GetPort` and `TargetUrl` as functions. The routes
  discovery registers are specified by `ExtensionRoutes`, with lemmas that
  characterise that function. The routing library's `WebService` and
  `Container` are small classes. `RegisterExtension` is a method with the
  source's two nested loops, proved against `ExtensionRoutes`.

The result of the cluster's service list call is an input of
`RegisterExtension`, a `Result<seq<Service>, ListError>`. A `Service` keeps
only what discovery reads: its name, its annotation map and its port list.
Kubernetes declares a port as a 32-bit signed integer, hence `Int32`.

Three facts about the code shape the model:

- A service that has the annotation but no ports is not skipped: the code
  indexes `Ports[0]` unconditionally (pkg/endpoints/utils.go:165). The model
  therefore requires every annotated service to declare a port
  (`PortsDeclared`).
- Two services that declare the same path both get a route, and the code
  promises nothing about which one a request reaches. The model records every
  route, in registration order, and says nothing about dispatch.
- Every call appends one more web service to the container
  (`Container.Add` appends).

## Model

| member | source | states |
|---|---|---|
| `Strconv.NatToDecimal` | pkg/endpoints/utils.go:165 | The decimal rendering of a natural number is a non-empty string of digits. It starts with '0' exactly when the number is 0, and "0" is then the whole string. |
| `Strconv.Itoa` | pkg/endpoints/utils.go:165 | `strconv.Itoa`'s output is canonical: "0", or an optional '-' and then digits with no leading zero. It starts with '-' exactly when the number is negative. |
| `Strconv.DigitsOfNat` | pkg/endpoints/utils.go:165 | The digits rendered for n have the value n. |
| `Strconv.ItoaRoundTrip` | pkg/endpoints/utils.go:165 | Parsing `Itoa(i)` back gives `i` for every integer, negative ones included. |
| `Strconv.ItoaInjective` | pkg/endpoints/utils.go:165 | Two different numbers never render to the same string. |
| `Strconv.LeadingDigitPositive` | pkg/endpoints/utils.go:165 | A digit string with no leading zero has a positive value. |
| `Strconv.NatOfDigits` | pkg/endpoints/utils.go:165 | Rendering the value of a digit string with no leading zero gives that string back. |
| `Strconv.ParseRoundTrip` | pkg/endpoints/utils.go:165 | The reverse round trip: a canonical string that parses to `i` is exactly `Itoa(i)`. |
| `Endpoints.GetPort` | pkg/endpoints/utils.go:164-166 | For a service with at least one port, `getPort` returns a canonical decimal string that parses back to the first declared port. |
| `Endpoints.TargetUrl` | pkg/endpoints/utils.go:158 | The proxy target starts with `http://` and ends with `/`. When the port has no ':', splitting the text between `http://` and the final `/` at its last ':' gives back exactly the extension's name and port. |
| `Endpoints.LastIndexOf` | pkg/endpoints/utils.go:158 | Finds the last occurrence of a character, or reports that there is none. This is the split that reads name and port back out of the target. |
| `Endpoints.TargetRoundTrip` | pkg/endpoints/utils.go:158 | `"http://" + name + ":" + port + "/"` splits back into `(name, port)` whenever the port contains no ':'. |
| `Endpoints.ExtensionOf` | pkg/endpoints/utils.go:148 | The Extension built for an annotated service has the service's name and the annotation value as its URL. Its port is a canonical decimal string that parses back to the service's first port, so by `ParseRoundTrip` it is exactly `Itoa` of that port. |
| `Endpoints.RouteOf` | pkg/endpoints/utils.go:148-149 | Definition of the route `ws.POST(url).To(ext.HandleExtension)`: POST at the annotation value, bound to the service's own Extension. `ServiceOfRoute`, `RouteMembership` and `RouteTarget` characterise it. |
| `Endpoints.ServiceRoutes` | pkg/endpoints/utils.go:145-151 | Definition of what one service's annotation scan registers: its one route if it has the annotation, nothing otherwise. `RouteOfServiceAt` places it in the whole listing. |
| `Endpoints.ExtensionRoutes` | pkg/endpoints/utils.go:144-152 | The routes registered for a listing, in registration order. There are never more routes than services. |
| `Endpoints.Extensions` | pkg/endpoints/utils.go:144-146 | Reference filter: the annotated services of the listing, in listing order. Every element carries the annotation and belongs to the listing. |
| `Endpoints.RoutesOf` | pkg/endpoints/utils.go:148-149 | Reference map: one route per annotated service, built from that same service. |
| `Endpoints.RoutesAreFilterMap` | pkg/endpoints/utils.go:144-152 | The registered routes are exactly the map of `RouteOf` over the annotated services: one route for each annotated service, none for the others, in listing order. |
| `Endpoints.RouteCount` | pkg/endpoints/utils.go:144-152 | The number of routes equals the number of annotated services. |
| `Endpoints.ExtensionsAppend` | pkg/endpoints/utils.go:144-146 | Appending a service to the listing appends it to the annotated services exactly when it carries the annotation. |
| `Endpoints.RoutesAppend` | pkg/endpoints/utils.go:144-152 | Discovery over a concatenated listing registers the first part's routes, then the second part's. Services are handled independently and in order. |
| `Endpoints.RouteOfServiceAt` | pkg/endpoints/utils.go:144-152 | Service j contributes exactly `ServiceRoutes(svcs[j])`, at its own position. That is one route bound to its own Extension if it carries the annotation, and none otherwise, so never more than one. Earlier services' routes come before it and later ones' after. |
| `Endpoints.ServiceOfRoute` | pkg/endpoints/utils.go:145-149 | Every registered route is `RouteOf` some annotated listed service. It is therefore a POST at that service's annotation value, bound to that service's Extension. |
| `Endpoints.RouteOfService` | pkg/endpoints/utils.go:145-149 | Every annotated listed service has its route registered. |
| `Endpoints.RouteMembership` | pkg/endpoints/utils.go:144-152 | A route is registered if and only if some annotated service of the listing yields it. |
| `Endpoints.RouteTarget` | pkg/endpoints/utils.go:148-158 | The handler of an annotated service's route forwards to `http://<service name>:<Itoa(first port)>/`. That target splits back into the service's own name and port, and the port parses back to the first declared port. |
| `Endpoints.WebService.constructor` | pkg/endpoints/utils.go:138-142 | A fresh web service has root path "/", JSON media types and no routes. |
| `Endpoints.WebService.AddRoute` | pkg/endpoints/utils.go:149 | `ws.Route` appends exactly one route and changes nothing else. |
| `Endpoints.Container.Add` | pkg/endpoints/utils.go:153 | The container's web services grow by exactly the added one. |
| `Endpoints.RegisterExtension` | pkg/endpoints/utils.go:131-154 | When the list call fails, the container is left unchanged. Otherwise exactly one fresh web service rooted at "/" is appended to the container, and its routes are `ExtensionRoutes` of the listing. The inner loop visits the annotation keys in any order, as Go's map iteration does, and the result is the same for every order. |

## Left out

- The Kubernetes list call with its label selector (pkg/endpoints/utils.go:133). It is a network call, and its result is an input of `RegisterExtension`. `ExtensionLabel` records the selector.
- Logging (pkg/endpoints/utils.go:132, 135, 147), because it has no effect on what is registered.
- go-restful's route matching and dispatch, including what happens when two services declare the same path. The library is not part of this model, and the code makes no promise about it. `Container.Add` is modelled as a plain append, without the library's own checks.
- `url.Parse`, whose error is discarded, and the reverse proxy's forwarding, streaming and upstream errors (pkg/endpoints/utils.go:158-160). These are library network I/O. Only the target string is modelled.
- The fixed route lists of `RegisterEndpoints`, `RegisterWebsocket`, `RegisterHealthProbes` and `RegisterReadinessProbes` (pkg/endpoints/utils.go:40-119). They are fixed wiring to handlers in files that are not part of this model.
- A service that carries the annotation but has no ports. The code fails on it, and the model makes it a precondition (`PortsDeclared`) rather than a skip.
- `Endpoints.TargetUrl`: the name and port round trip needs a port without ':'. `RouteTarget` shows that every port `getPort` renders meets this. For other extensions the contract gives only the `http://` prefix and the `/` suffix.
- Validation of port ranges and of annotation values as URL paths. The code does neither, and neither does the model.
- Host-name syntax of service names. `SplitTarget` inverts the target template for any name. It agrees with the authority split of section 3.2 of RFC 3986 only when the name is a host name, which Kubernetes enforces for service names (DNS labels) and the model does not.

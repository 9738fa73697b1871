/** Routes, services, the edge and the transport of a manifest: their normal forms
    (src/config.js, normalizeRoute to normalizeTransport).  An omitted field is `None`;
    a failed check is `None` for the whole part. */
module ManifestParts {
  import opened Results
  import opened Texts
  import opened Sorting
  import opened Reordering
  import opened RequestPath
  import opened ManifestScalars

  datatype Route = Route(path: string, methods: seq<string>)

  datatype Service = Service(
    id: string, exposure: Option<string>, profile: Option<string>, domains: seq<string>,
    upstream: Address, listen: Address, target: Address, healthPath: Option<string>,
    tokenSet: string, routes: seq<Route>,
    maxBodyBytes: Option<int>, maxConcurrentRequests: Option<int>, idleTimeoutSeconds: Option<int>,
    forwardCookies: Option<bool>)

  datatype PrivateListener = PrivateListener(service: string, listen: Address)

  datatype Site = Site(host: string, secure: bool, upstream: Address, tlsServerName: Option<string>)

  datatype Edge = Edge(
    gatewayListen: Address, httpPort: Option<int>, httpsPort: Option<int>,
    compatibilityListen: Option<Address>, compatibilityService: Option<string>,
    privateListeners: Option<seq<PrivateListener>>, existingSites: Option<seq<Site>>)

  datatype Transport = Transport(
    provider: string, sshHost: Option<string>, sshUser: string, sshPort: Option<int>, hostKeyAlias: Option<string>)

  predicate Differ<T(==)>(x: T, y: T) { x != y }

  // ----- routes

  predicate RouteOk(r: Route, profile: Option<string>) {
    && IsRoutePath(r.path) && r.methods != []
    && (forall verb :: verb in r.methods ==> verb in METHODS && ProfilePermits(profile, r.path, verb))
    && Pairwise(r.methods, Differ)
  }

  /** normalizeRoute returns this for a route it accepts. */
  function SortedRoute(r: Route): Route { Route(r.path, Sort(r.methods, Before)) }

  function Join(parts: seq<string>): string {
    if parts == [] then "" else if |parts| == 1 then parts[0] else parts[0] + "," + Join(parts[1..])
  }

  predicate RouteBefore(a: Route, b: Route) {
    Before(a.path, b.path) || (a.path == b.path && Before(Join(a.methods), Join(b.methods)))
  }

  /** No (method, path) claim in common. */
  predicate Unclaimed(a: Route, b: Route) {
    a.path == b.path ==> forall verb :: verb in a.methods ==> verb !in b.methods
  }

  predicate Claims(routes: seq<Route>, path: string, verb: string) {
    exists r :: r in routes && r.path == path && verb in r.methods
  }

  // ----- services

  predicate IsPrivate(s: Service) { s.exposure == Some("private") }

  predicate ServiceFieldsOk(s: Service) {
    && IsName(s.id) && IsName(s.tokenSet) && IsProfile(s.profile)
    && (s.exposure == None || s.exposure == Some("public") || s.exposure == Some("private"))
    && IsTarget(s.upstream) && IsListener(s.listen) && IsTarget(s.target)
    && (s.healthPath.Some? ==> IsHealthPath(s.healthPath.value))
    && InRange(s.maxBodyBytes, DEFAULT_MAX_BODY_BYTES, 1, MAX_BODY_BYTES)
    && InRange(s.maxConcurrentRequests, DEFAULT_MAX_CONCURRENT_REQUESTS, 1, MAX_CONCURRENT_REQUESTS)
    && InRange(s.idleTimeoutSeconds, DEFAULT_IDLE_TIMEOUT_SECONDS, 1, MAX_IDLE_TIMEOUT_SECONDS)
    && (s.forwardCookies == Some(true) ==> s.profile == None || s.profile == Some(GENERIC))
  }

  predicate DomainsOk(s: Service) {
    && |s.domains| <= 16 && (IsPrivate(s) <==> s.domains == [])
    && (forall d :: d in s.domains ==> DomainOk(d))
    && Pairwise(Map(s.domains, Lower), Differ)
  }

  /** The checks made on a service's normalised routes. */
  predicate ClaimsOk(s: Service, routes: seq<Route>) {
    && (forall r :: r in routes ==> s.healthPath != Some(r.path))
    && Pairwise(routes, Unclaimed)
    && (s.profile == Some(LOCALLLM_ADMISSION) ==>
          Claims(routes, "/readyz", "GET") && Claims(routes, "/api/node/capabilities", "GET"))
  }

  predicate RoutesOk(s: Service) {
    && 1 <= |s.routes| <= 128
    && (forall r :: r in s.routes ==> RouteOk(r, s.profile))
    && ClaimsOk(s, Map(s.routes, SortedRoute))
  }

  predicate ServiceOk(s: Service) { ServiceFieldsOk(s) && DomainsOk(s) && RoutesOk(s) }

  /** normalizeService returns this for a service it accepts. */
  function NormalService(s: Service): Service {
    s.(
      exposure := if IsPrivate(s) then s.exposure else None,
      domains := Sort(Map(s.domains, Lower), Before),
      routes := Sort(Map(s.routes, SortedRoute), RouteBefore),
      maxBodyBytes := Some(Default(s.maxBodyBytes, DEFAULT_MAX_BODY_BYTES)),
      maxConcurrentRequests := Some(Default(s.maxConcurrentRequests, DEFAULT_MAX_CONCURRENT_REQUESTS)),
      idleTimeoutSeconds := Some(Default(s.idleTimeoutSeconds, DEFAULT_IDLE_TIMEOUT_SECONDS)),
      forwardCookies := if s.forwardCookies == Some(true) then Some(true) else None)
  }

  // ----- the edge

  function Listed<T>(s: Option<seq<T>>): seq<T> { if s.Some? then s.value else [] }

  predicate ListenerOk(p: PrivateListener) { IsName(p.service) && IsListener(p.listen) && p.listen.port >= 1024 }

  predicate ListenersDiffer(a: PrivateListener, b: PrivateListener) { a.service != b.service && a.listen != b.listen }

  /** By service; no two listeners share one. */
  predicate ListenerBefore(a: PrivateListener, b: PrivateListener) { Before(a.service, b.service) }

  predicate SiteOk(s: Site) {
    DomainOk(s.host) && IsSiteUpstream(s.secure, s.upstream) && (s.tlsServerName.Some? ==> DomainOk(s.tlsServerName.value))
  }

  function NormalSite(s: Site): Site {
    s.(host := Lower(s.host), tlsServerName := if s.tlsServerName.Some? then Some(Lower(s.tlsServerName.value)) else None)
  }

  predicate HostsDiffer(a: Site, b: Site) { a.host != b.host }

  predicate SiteBefore(a: Site, b: Site) { Before(a.host, b.host) }

  predicate ListenersOk(listeners: seq<PrivateListener>) {
    && |listeners| <= 128 && (forall p :: p in listeners ==> ListenerOk(p)) && Pairwise(listeners, ListenersDiffer)
  }

  predicate SitesOk(sites: seq<Site>) {
    |sites| <= 32 && (forall s :: s in sites ==> SiteOk(s)) && Pairwise(Map(sites, NormalSite), HostsDiffer)
  }

  predicate EdgeOk(e: Edge) {
    && IsListener(e.gatewayListen)
    && InRange(e.httpPort, DEFAULT_HTTP_PORT, 1024, 65535) && InRange(e.httpsPort, DEFAULT_HTTPS_PORT, 1024, 65535)
    && Default(e.httpPort, DEFAULT_HTTP_PORT) != Default(e.httpsPort, DEFAULT_HTTPS_PORT)
    && (e.compatibilityListen.Some? ==>
          IsListener(e.compatibilityListen.value) && e.compatibilityListen.value != e.gatewayListen)
    && (e.compatibilityService.Some? ==> IsName(e.compatibilityService.value))
    && ListenersOk(Listed(e.privateListeners))
    && SitesOk(Listed(e.existingSites))
  }

  /** normalizeEdge returns this for an edge it accepts. */
  function NormalEdge(e: Edge): Edge {
    e.(
      httpPort := Some(Default(e.httpPort, DEFAULT_HTTP_PORT)),
      httpsPort := Some(Default(e.httpsPort, DEFAULT_HTTPS_PORT)),
      privateListeners := if Listed(e.privateListeners) == [] then None
                          else Some(Sort(e.privateListeners.value, ListenerBefore)),
      existingSites := if e.existingSites.None? then None
                       else Some(Sort(Map(e.existingSites.value, NormalSite), SiteBefore)))
  }

  // ----- the transport

  predicate TransportOk(t: Transport) {
    && t.provider == "openssh-reverse"
    && t.sshHost.Some? && SshHostOk(t.sshHost.value) && IsUserName(t.sshUser)
    && (t.sshPort.Some? ==> 1 <= t.sshPort.value <= 65535)
    && (t.hostKeyAlias.Some? ==> IsAlias(t.hostKeyAlias.value))
  }

  /** normalizeTransport returns this for a transport it accepts. */
  function NormalTransport(t: Transport): Transport {
    if t.sshHost.Some? then t.(sshHost := Some(Lower(t.sshHost.value))) else t
  }
}

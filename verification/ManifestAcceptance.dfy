/** Which manifests normalizeManifest accepts, said on the input itself: no normal form, no
    sorted list and no key is mentioned. */
module ManifestAcceptance {
  import opened Results
  import opened Texts
  import opened Sorting
  import opened Reordering
  import opened RequestPath
  import opened ManifestScalars
  import opened ManifestParts
  import opened Manifests

  // ----- what one service must be

  predicate IsPort(n: int) { 1 <= n <= 65535 }

  predicate IsLoopback(a: Address) { a.host == "127.0.0.1" && IsPort(a.port) }

  predicate Within(value: Option<int>, most: int) { value.Some? ==> 1 <= value.value <= most }

  /** The request that a profile is for. */
  predicate OpenAiRequest(path: string, verb: string) {
    || (verb == "GET" && path == "/v1/models")
    || (verb == "POST" && (path == "/v1/chat/completions" || path == "/v1/responses" || path == "/v1/embeddings"))
  }

  predicate ProfileRequest(profile: Option<string>, path: string, verb: string) {
    match profile
    case None => true
    case Some(name) =>
      || name == "generic-http"
      || OpenAiRequest(path, verb)
      || (name == "localllm-openai-admission" && verb == "GET" && (path == "/readyz" || path == "/api/node/capabilities"))
  }

  predicate HasClaim(s: Service, path: string, verb: string) {
    exists r :: r in s.routes && r.path == path && verb in r.methods
  }

  predicate GoodService(s: Service) {
    && IsName(s.id) && IsName(s.tokenSet)
    && s.profile in [None, Some("generic-http"), Some("localllm-openai"), Some("localllm-openai-admission")]
    && s.exposure in [None, Some("public"), Some("private")]
    && IsLoopback(s.upstream) && IsLoopback(s.listen) && IsLoopback(s.target)
    && s.upstream.port != 80 && s.target.port != 80
    && (s.healthPath.Some? ==> |s.healthPath.value| <= 256 && IsRoutePath(s.healthPath.value) && !("/v1/" <= s.healthPath.value))
    && Within(s.maxBodyBytes, 1_073_741_824) && Within(s.maxConcurrentRequests, 1024) && Within(s.idleTimeoutSeconds, 86_400)
    && (s.forwardCookies == Some(true) ==> s.profile == None || s.profile == Some("generic-http"))
  }

  /** Exact public hosts, pairwise different up to case; a private service has none. */
  predicate GoodDomains(s: Service) {
    && |s.domains| <= 16 && (s.exposure == Some("private") <==> s.domains == [])
    && (forall i :: 0 <= i < |s.domains| ==> DomainOk(s.domains[i]))
    && (forall i, j :: 0 <= i < j < |s.domains| ==> Lower(s.domains[i]) != Lower(s.domains[j]))
  }

  predicate GoodRoute(r: Route, profile: Option<string>) {
    && IsRoutePath(r.path) && r.methods != []
    && (forall verb :: verb in r.methods ==>
          verb in {"GET", "POST", "PUT", "PATCH", "DELETE", "HEAD", "OPTIONS"} && ProfileRequest(profile, r.path, verb))
    && (forall i, j :: 0 <= i < j < |r.methods| ==> r.methods[i] != r.methods[j])
  }

  /** No request is claimed twice, none is the health check's, and an admission service
      claims the two requests that admission needs. */
  predicate GoodRoutes(s: Service) {
    && 1 <= |s.routes| <= 128
    && (forall i :: 0 <= i < |s.routes| ==> GoodRoute(s.routes[i], s.profile) && s.healthPath != Some(s.routes[i].path))
    && (forall i, j, verb :: 0 <= i < j < |s.routes| && s.routes[i].path == s.routes[j].path && verb in s.routes[i].methods ==>
          verb !in s.routes[j].methods)
    && (s.profile == Some("localllm-openai-admission") ==>
          HasClaim(s, "/readyz", "GET") && HasClaim(s, "/api/node/capabilities", "GET"))
  }

  lemma ProfilesAgree(profile: Option<string>, path: string, verb: string)
    requires IsProfile(profile)
    ensures ProfilePermits(profile, path, verb) <==> ProfileRequest(profile, path, verb)
  {
    assert "generic-http"[0] != "localllm-openai"[0];
    assert |"localllm-openai"| != |"localllm-openai-admission"|;
  }

  lemma FieldsAgree(s: Service)
    ensures ServiceFieldsOk(s) <==> GoodService(s)
  {
  }

  lemma DomainsAgree(s: Service)
    ensures DomainsOk(s) <==> GoodDomains(s)
  {
    var low := Map(s.domains, Lower);
    if DomainsOk(s) {
      forall i, j | 0 <= i < j < |s.domains| ensures Lower(s.domains[i]) != Lower(s.domains[j]) { assert Differ(low[i], low[j]); }
    }
    if GoodDomains(s) {
      forall i, j | 0 <= i < j < |low| ensures Differ(low[i], low[j]) { }
    }
  }

  lemma RouteAgrees(r: Route, profile: Option<string>)
    requires IsProfile(profile)
    ensures RouteOk(r, profile) <==> GoodRoute(r, profile)
  {
    forall verb ensures ProfilePermits(profile, r.path, verb) <==> ProfileRequest(profile, r.path, verb) {
      ProfilesAgree(profile, r.path, verb);
    }
    if RouteOk(r, profile) {
      forall i, j | 0 <= i < j < |r.methods| ensures r.methods[i] != r.methods[j] { assert Differ(r.methods[i], r.methods[j]); }
    }
    if GoodRoute(r, profile) {
      forall i, j | 0 <= i < j < |r.methods| ensures Differ(r.methods[i], r.methods[j]) { }
    }
  }

  lemma SortedHasMethods(r: Route)
    ensures SortedRoute(r).path == r.path && forall verb :: verb in SortedRoute(r).methods <==> verb in r.methods
  {
    SortHasMembers(r.methods, Before);
  }

  lemma ClaimsAgree(s: Service, path: string, verb: string)
    ensures Claims(Map(s.routes, SortedRoute), path, verb) <==> HasClaim(s, path, verb)
  {
    var sorted := Map(s.routes, SortedRoute);
    if r :| r in sorted && r.path == path && verb in r.methods {
      var i :| 0 <= i < |sorted| && sorted[i] == r;
      SortedHasMethods(s.routes[i]);
    }
    if r :| r in s.routes && r.path == path && verb in r.methods {
      var i :| 0 <= i < |s.routes| && s.routes[i] == r;
      SortedHasMethods(r);
      assert sorted[i] in sorted;
    }
  }

  lemma UnclaimedAgrees(r: Route, q: Route)
    ensures Unclaimed(SortedRoute(r), SortedRoute(q)) <==>
              (r.path == q.path ==> forall verb :: verb in r.methods ==> verb !in q.methods)
  {
    SortedHasMethods(r);
    SortedHasMethods(q);
  }

  lemma PairsUnclaimed(s: Service)
    ensures Pairwise(Map(s.routes, SortedRoute), Unclaimed) <==>
              forall i, j, verb :: 0 <= i < j < |s.routes| && s.routes[i].path == s.routes[j].path && verb in s.routes[i].methods ==>
                verb !in s.routes[j].methods
  {
    var sorted := Map(s.routes, SortedRoute);
    forall i, j | 0 <= i < j < |s.routes|
      ensures Unclaimed(sorted[i], sorted[j]) <==>
                (s.routes[i].path == s.routes[j].path ==> forall verb :: verb in s.routes[i].methods ==> verb !in s.routes[j].methods)
    {
      UnclaimedAgrees(s.routes[i], s.routes[j]);
    }
  }

  lemma HealthAgrees(s: Service)
    ensures (forall r :: r in Map(s.routes, SortedRoute) ==> s.healthPath != Some(r.path)) <==>
              forall i :: 0 <= i < |s.routes| ==> s.healthPath != Some(s.routes[i].path)
  {
    var sorted := Map(s.routes, SortedRoute);
    assert forall i :: 0 <= i < |s.routes| ==> sorted[i] in sorted && sorted[i].path == s.routes[i].path;
  }

  lemma RoutesAgree(s: Service)
    requires IsProfile(s.profile)
    ensures RoutesOk(s) <==> GoodRoutes(s)
  {
    forall r ensures RouteOk(r, s.profile) <==> GoodRoute(r, s.profile) { RouteAgrees(r, s.profile); }
    PairsUnclaimed(s);
    HealthAgrees(s);
    ClaimsAgree(s, "/readyz", "GET");
    ClaimsAgree(s, "/api/node/capabilities", "GET");
  }

  lemma ServiceAgrees(s: Service)
    ensures ServiceOk(s) <==> GoodService(s) && GoodDomains(s) && GoodRoutes(s)
  {
    FieldsAgree(s);
    DomainsAgree(s);
    if ServiceFieldsOk(s) { RoutesAgree(s); }
  }

  // ----- what the services must be together

  /** Both services offer one public request. */
  ghost predicate Collision(s: Service, t: Service, d: string, e: string, r: Route, q: Route, verb: string) {
    && d in s.domains && e in t.domains && Lower(d) == Lower(e)
    && r in s.routes && q in t.routes && r.path == q.path && verb in r.methods && verb in q.methods
  }

  /** Nothing that identifies a service is shared, and no public request. */
  ghost predicate GoodPair(s: Service, t: Service) {
    && s.id != t.id && s.listen != t.listen && s.upstream != t.upstream
    && forall d, e, r, q, verb :: !Collision(s, t, d, e, r, q, verb)
  }

  lemma NormalMembers(s: Service)
    ensures forall d :: d in NormalService(s).domains <==> exists e :: e in s.domains && Lower(e) == d
    ensures forall r :: r in NormalService(s).routes <==> exists q :: q in s.routes && SortedRoute(q) == r
  {
    SortHasMembers(Map(s.domains, Lower), Before);
    SortHasMembers(Map(s.routes, SortedRoute), RouteBefore);
    MapMembers(s.domains, Lower);
    MapMembers(s.routes, SortedRoute);
  }

  lemma MapMembers<T, U(!new)>(s: seq<T>, f: T -> U)
    ensures forall y :: y in Map(s, f) <==> exists x :: x in s && f(x) == y
  {
    var m := Map(s, f);
    forall y | y in m ensures exists x :: x in s && f(x) == y { var i :| 0 <= i < |m| && m[i] == y; assert s[i] in s; }
    forall x | x in s ensures f(x) in m { var i :| 0 <= i < |s| && s[i] == x; assert m[i] in m; }
  }

  lemma SharedIsCollision(s: Service, t: Service)
    ensures SharesClaim(NormalService(s), NormalService(t)) <==> exists d, e, r, q, verb :: Collision(s, t, d, e, r, q, verb)
  {
    NormalMembers(s);
    NormalMembers(t);
    if SharesClaim(NormalService(s), NormalService(t)) {
      var h :| h in NormalService(s).domains && h in NormalService(t).domains;
      var a, b :| a in NormalService(s).routes && b in NormalService(t).routes && !Unclaimed(a, b);
      var d, e :| d in s.domains && Lower(d) == h && e in t.domains && Lower(e) == h;
      var r, q :| r in s.routes && SortedRoute(r) == a && q in t.routes && SortedRoute(q) == b;
      UnclaimedAgrees(r, q);
      var verb :| verb in r.methods && verb in q.methods;
      assert Collision(s, t, d, e, r, q, verb);
    }
    if d, e, r, q, verb :| Collision(s, t, d, e, r, q, verb) {
      UnclaimedAgrees(r, q);
      assert Lower(d) in NormalService(s).domains && Lower(d) in NormalService(t).domains;
      assert SortedRoute(r) in NormalService(s).routes && SortedRoute(q) in NormalService(t).routes;
    }
  }

  lemma PairAgrees(s: Service, t: Service)
    ensures Compatible(NormalService(s), NormalService(t)) <==> GoodPair(s, t)
  {
    SharedIsCollision(s, t);
  }

  ghost predicate GoodServices(services: seq<Service>) {
    && 1 <= |services| <= 128
    && (forall i :: 0 <= i < |services| ==> GoodService(services[i]) && GoodDomains(services[i]) && GoodRoutes(services[i]))
    && (forall i, j :: 0 <= i < j < |services| ==> GoodPair(services[i], services[j]))
  }

  lemma ServicesAgree(services: seq<Service>)
    ensures ServicesOk(services) <==> GoodServices(services)
  {
    var normal := Map(services, NormalService);
    forall s ensures ServiceOk(s) <==> GoodService(s) && GoodDomains(s) && GoodRoutes(s) { ServiceAgrees(s); }
    forall i, j | 0 <= i < j < |services|
      ensures Compatible(normal[i], normal[j]) <==> GoodPair(services[i], services[j])
    {
      PairAgrees(services[i], services[j]);
    }
  }

  // ----- the edge, the transport and their links to the services

  predicate GoodListeners(listeners: seq<PrivateListener>) {
    && |listeners| <= 128
    && (forall p :: p in listeners ==>
          IsName(p.service) && p.listen.host == "127.0.0.1" && 1024 <= p.listen.port <= 65535)
    && (forall i, j :: 0 <= i < j < |listeners| ==>
          listeners[i].service != listeners[j].service && listeners[i].listen != listeners[j].listen)
  }

  predicate GoodSites(sites: seq<Site>) {
    && |sites| <= 32
    && (forall s :: s in sites ==>
          && DomainOk(s.host) && IsLoopback(s.upstream)
          && s.upstream.port != 80 && (s.secure ==> s.upstream.port != 443)
          && (s.tlsServerName.Some? ==> DomainOk(s.tlsServerName.value)))
    && (forall i, j :: 0 <= i < j < |sites| ==> Lower(sites[i].host) != Lower(sites[j].host))
  }

  predicate GoodEdge(e: Edge) {
    var http, https := Default(e.httpPort, 10_080), Default(e.httpsPort, 10_443);
    && IsLoopback(e.gatewayListen)
    && 1024 <= http <= 65535 && 1024 <= https <= 65535 && http != https
    && (e.compatibilityListen.Some? ==> IsLoopback(e.compatibilityListen.value) && e.compatibilityListen.value != e.gatewayListen)
    && (e.compatibilityService.Some? ==> IsName(e.compatibilityService.value))
    && GoodListeners(Listed(e.privateListeners)) && GoodSites(Listed(e.existingSites))
  }

  predicate GoodTransport(t: Transport) {
    && t.provider == "openssh-reverse" && t.sshHost.Some? && SshHostOk(t.sshHost.value) && IsUserName(t.sshUser)
    && (t.sshPort.Some? ==> IsPort(t.sshPort.value)) && (t.hostKeyAlias.Some? ==> IsAlias(t.hostKeyAlias.value))
  }

  lemma ListenersAgree(listeners: seq<PrivateListener>)
    ensures ListenersOk(listeners) <==> GoodListeners(listeners)
  {
    if ListenersOk(listeners) {
      forall i, j | 0 <= i < j < |listeners|
        ensures listeners[i].service != listeners[j].service && listeners[i].listen != listeners[j].listen
      {
        assert ListenersDiffer(listeners[i], listeners[j]);
      }
    }
    if GoodListeners(listeners) {
      forall i, j | 0 <= i < j < |listeners| ensures ListenersDiffer(listeners[i], listeners[j]) { }
    }
  }

  lemma SitesAgree(sites: seq<Site>)
    ensures SitesOk(sites) <==> GoodSites(sites)
  {
    var normal := Map(sites, NormalSite);
    if SitesOk(sites) {
      forall i, j | 0 <= i < j < |sites| ensures Lower(sites[i].host) != Lower(sites[j].host) { assert HostsDiffer(normal[i], normal[j]); }
    }
    if GoodSites(sites) {
      forall i, j | 0 <= i < j < |sites| ensures HostsDiffer(normal[i], normal[j]) { }
    }
  }

  lemma EdgeAgrees(e: Edge)
    ensures EdgeOk(e) <==> GoodEdge(e)
  {
    ListenersAgree(Listed(e.privateListeners));
    SitesAgree(Listed(e.existingSites));
  }

  /** The compatibility listener serves a public service, the only one or a named one. */
  predicate GoodCompatibility(m: Manifest) {
    if m.edge.compatibilityListen == None then m.edge.compatibilityService == None
    else exists s :: s in m.services && s.exposure != Some("private")
                     && if m.edge.compatibilityService.Some? then m.edge.compatibilityService == Some(s.id) else |m.services| == 1
  }

  /** Exactly the private services have a private listener. */
  predicate GoodPrivate(m: Manifest) {
    && (forall p :: p in Listed(m.edge.privateListeners) ==>
          exists s :: s in m.services && s.id == p.service && s.exposure == Some("private"))
    && (forall s :: s in m.services && s.exposure == Some("private") ==>
          exists p :: p in Listed(m.edge.privateListeners) && p.service == s.id)
  }

  /** No existing site has a service's domain. */
  predicate GoodHosts(m: Manifest) {
    forall t, s, d :: t in Listed(m.edge.existingSites) && s in m.services && d in s.domains ==> Lower(t.host) != Lower(d)
  }

  /** Every port that something on the edge binds: the gateway, the compatibility listener,
      the private listeners, HTTP, HTTPS, SSH and the services' upstreams. */
  function BoundPorts(m: Manifest): seq<int> {
    [m.edge.gatewayListen.port]
    + (if m.edge.compatibilityListen.Some? then [m.edge.compatibilityListen.value.port] else [])
    + Map(Listed(m.edge.privateListeners), (p: PrivateListener) => p.listen.port)
    + [Default(m.edge.httpPort, 10_080), Default(m.edge.httpsPort, 10_443), Default(m.transport.sshPort, 22)]
    + Map(m.services, (s: Service) => s.upstream.port)
  }

  /** All of them differ, no existing site is served from one, and no worker target is on a
      worker listener's port. */
  predicate GoodPorts(m: Manifest) {
    && (forall i, j :: 0 <= i < j < |BoundPorts(m)| ==> BoundPorts(m)[i] != BoundPorts(m)[j])
    && (forall t :: t in Listed(m.edge.existingSites) ==> t.upstream.port !in BoundPorts(m))
    && (forall s, t :: s in m.services && t in m.services ==> s.target.port != t.listen.port)
  }

  ghost predicate WellFormed(m: Manifest) {
    && m.apiVersion == "lazyedge.lazying.art/v1alpha1" && m.kind == "EdgeProject" && IsName(m.name)
    && GoodServices(m.services) && GoodEdge(m.edge) && GoodTransport(m.transport)
    && GoodCompatibility(m) && GoodPrivate(m) && GoodHosts(m) && GoodPorts(m)
  }

  lemma ServiceStays(s: Service)
    ensures var n := NormalService(s);
            && n.id == s.id && n.listen == s.listen && n.upstream == s.upstream && n.target == s.target
            && (IsPrivate(n) <==> s.exposure == Some("private"))
  {
  }

  /** A service with some property among the normal ones comes from one among the given. */
  lemma ServesAgrees(services: seq<Service>, id: string, exposed: bool)
    ensures Serves(Map(services, NormalService), id, exposed) <==>
              exists s :: s in services && s.id == id && (s.exposure == Some("private")) != exposed
  {
    MapMembers(services, NormalService);
    forall s ensures NormalService(s).id == s.id && (IsPrivate(NormalService(s)) <==> s.exposure == Some("private")) {
      ServiceStays(s);
    }
  }

  lemma CompatibilityAgrees(m: Manifest)
    requires m.services != []
    ensures CompatibilityOk(NormalEdge(m.edge), Map(m.services, NormalService)) <==> GoodCompatibility(m)
  {
    var services := Map(m.services, NormalService);
    if m.edge.compatibilityListen.Some? {
      if m.edge.compatibilityService.Some? { ServesAgrees(m.services, m.edge.compatibilityService.value, true); }
      else {
        ServesAgrees(m.services, m.services[0].id, true);
        assert services[0].id == m.services[0].id;
      }
    }
  }

  lemma ListedStays(e: Edge)
    ensures forall p :: p in Listed(NormalEdge(e).privateListeners) <==> p in Listed(e.privateListeners)
    ensures forall t :: t in Listed(NormalEdge(e).existingSites) <==>
              exists s :: s in Listed(e.existingSites) && NormalSite(s) == t
  {
    SortHasMembers(Listed(e.privateListeners), ListenerBefore);
    SortHasMembers(Map(Listed(e.existingSites), NormalSite), SiteBefore);
    MapMembers(Listed(e.existingSites), NormalSite);
  }

  lemma PrivateAgrees(m: Manifest)
    ensures PrivateOk(Listed(NormalEdge(m.edge).privateListeners), Map(m.services, NormalService)) <==> GoodPrivate(m)
  {
    ListedStays(m.edge);
    MapMembers(m.services, NormalService);
    forall p: PrivateListener
      ensures Serves(Map(m.services, NormalService), p.service, false) <==>
                exists s :: s in m.services && s.id == p.service && s.exposure == Some("private")
    {
      ServesAgrees(m.services, p.service, false);
    }
    forall s ensures NormalService(s).id == s.id && (IsPrivate(NormalService(s)) <==> s.exposure == Some("private")) {
      ServiceStays(s);
    }
  }

  lemma HostsAgree(m: Manifest)
    ensures SitesApart(Listed(NormalEdge(m.edge).existingSites), Map(m.services, NormalService)) <==> GoodHosts(m)
  {
    ListedStays(m.edge);
    MapMembers(m.services, NormalService);
    forall s ensures forall d :: d in NormalService(s).domains <==> exists e :: e in s.domains && Lower(e) == d { NormalMembers(s); }
    forall t ensures NormalSite(t).host == Lower(t.host) { }
  }

  lemma PortsReordered(m: Manifest)
    ensures Reordered(BoundPorts(m), EdgePorts(NormalEdge(m.edge), m.transport, Map(m.services, NormalService)))
  {
    var given, sorted := Listed(m.edge.privateListeners), Listed(NormalEdge(m.edge).privateListeners);
    SortReorders(given, ListenerBefore);
    ReorderedReflexive(given);
    SortPermutes(given, ListenerBefore);
    assert Reordered(given, sorted);
    MapOfReordered(given, sorted, ListenPort);
    var tail := [Default(m.edge.httpPort, DEFAULT_HTTP_PORT), Default(m.edge.httpsPort, DEFAULT_HTTPS_PORT),
                 Default(m.transport.sshPort, DEFAULT_SSH_PORT)] + Map(m.services, UpstreamPort);
    var head := [m.edge.gatewayListen.port] + OptionalPort(m.edge.compatibilityListen);
    PrependReordered(Map(given, ListenPort), Map(sorted, ListenPort), tail);
    AppendReordered(head, Map(given, ListenPort) + tail, Map(sorted, ListenPort) + tail);
    BoundPortsAre(m, head, Map(given, ListenPort), tail);
    EdgePortsAre(m, head, Map(sorted, ListenPort), tail);
  }

  lemma BoundPortsAre(m: Manifest, head: seq<int>, given: seq<int>, tail: seq<int>)
    requires head == [m.edge.gatewayListen.port] + OptionalPort(m.edge.compatibilityListen)
    requires given == Map(Listed(m.edge.privateListeners), ListenPort)
    requires tail == [Default(m.edge.httpPort, DEFAULT_HTTP_PORT), Default(m.edge.httpsPort, DEFAULT_HTTPS_PORT),
                      Default(m.transport.sshPort, DEFAULT_SSH_PORT)] + Map(m.services, UpstreamPort)
    ensures BoundPorts(m) == head + (given + tail)
  {
    assert given == Map(Listed(m.edge.privateListeners), (p: PrivateListener) => p.listen.port);
    assert Map(m.services, UpstreamPort) == Map(m.services, (s: Service) => s.upstream.port);
  }

  lemma EdgePortsAre(m: Manifest, head: seq<int>, sorted: seq<int>, tail: seq<int>)
    requires head == [m.edge.gatewayListen.port] + OptionalPort(m.edge.compatibilityListen)
    requires sorted == Map(Listed(NormalEdge(m.edge).privateListeners), ListenPort)
    requires tail == [Default(m.edge.httpPort, DEFAULT_HTTP_PORT), Default(m.edge.httpsPort, DEFAULT_HTTPS_PORT),
                      Default(m.transport.sshPort, DEFAULT_SSH_PORT)] + Map(m.services, UpstreamPort)
    ensures EdgePorts(NormalEdge(m.edge), m.transport, Map(m.services, NormalService)) == head + (sorted + tail)
  {
    assert Map(Map(m.services, NormalService), UpstreamPort) == Map(m.services, UpstreamPort);
  }

  lemma PortsAgree(m: Manifest)
    ensures PortsOk(NormalEdge(m.edge), m.transport, Map(m.services, NormalService)) <==> GoodPorts(m)
  {
    var ports := EdgePorts(NormalEdge(m.edge), m.transport, Map(m.services, NormalService));
    PortsReordered(m);
    ReorderedSymmetric(BoundPorts(m), ports);
    ReorderedHasMembers(BoundPorts(m), ports);
    DistinctAgrees(BoundPorts(m), ports);
    ListedStays(m.edge);
    MapMembers(m.services, NormalService);
    forall s ensures NormalService(s).target == s.target && NormalService(s).listen == s.listen { ServiceStays(s); }
    forall t ensures NormalSite(t).upstream == t.upstream { }
  }

  lemma DistinctAgrees(a: seq<int>, b: seq<int>)
    requires Reordered(a, b) && Reordered(b, a)
    ensures Pairwise(b, Differ) <==> forall i, j :: 0 <= i < j < |a| ==> a[i] != a[j]
  {
    if Pairwise(b, Differ) {
      PairwiseIsOrderFree(b, a, Differ);
      forall i, j | 0 <= i < j < |a| ensures a[i] != a[j] { assert Differ(a[i], a[j]); }
    }
    if forall i, j :: 0 <= i < j < |a| ==> a[i] != a[j] {
      assert Pairwise(a, Differ);
      PairwiseIsOrderFree(a, b, Differ);
    }
  }

  /** normalizeManifest accepts a manifest if and only if it is well-formed in this sense. */
  lemma AcceptedExactly(m: Manifest)
    ensures Normalize(m).Some? <==> WellFormed(m)
  {
    ServicesAgree(m.services);
    EdgeAgrees(m.edge);
    PrivateAgrees(m);
    HostsAgree(m);
    PortsAgree(m);
    if m.services != [] { CompatibilityAgrees(m); }
    assert TransportOk(m.transport) <==> GoodTransport(m.transport);
  }
}

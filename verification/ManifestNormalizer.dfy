/** `normalizeManifest` and the functions below it (src/config.js) as they run: loops,
    sets, maps and early exits, proved to compute the specification in Manifests. */
module ManifestNormalizer {
  import opened Results
  import opened Texts
  import opened Sorting
  import opened Reordering
  import opened RequestPath
  import opened ManifestScalars
  import opened ManifestParts
  import opened Manifests
  import opened ManifestOrders
  import opened ManifestCanonical
  import opened ClaimKeys
  import opened ManifestLoops
  import Acceptance = ManifestAcceptance
  import Inputs = ManifestInputs

  // ----- routes

  method NormalizeRoute(r: Route, profile: Option<string>) returns (result: Option<Route>)
    ensures result == if RouteOk(r, profile) then Some(SortedRoute(r)) else None
  {
    if !IsRoutePath(r.path) || r.methods == [] { return None; }
    for k := 0 to |r.methods|
      invariant forall verb :: verb in r.methods[..k] ==> verb in METHODS
    {
      assert r.methods[..k + 1] == r.methods[..k] + [r.methods[k]];
      if r.methods[k] !in METHODS { assert r.methods[k] in r.methods; return None; }
    }
    assert r.methods[..|r.methods|] == r.methods;
    var distinct := AllDistinct(r.methods);
    if !distinct { return None; }
    if exists verb :: verb in r.methods && !ProfilePermits(profile, r.path, verb) { return None; }
    return Some(SortedRoute(r));
  }

  ghost function PairKeys(r: Route): set<string> { set verb | verb in r.methods :: PairKey(verb, r.path) }

  ghost function AllPairKeys(routes: seq<Route>): set<string> {
    set r, verb | r in routes && verb in r.methods :: PairKey(verb, r.path)
  }

  lemma SharedPairKey(r: Route, q: Route)
    requires TidyRoute(r) && TidyRoute(q)
    ensures PairKeys(r) !! PairKeys(q) <==> Unclaimed(r, q)
  {
    forall verb, verb' | verb in r.methods && verb' in q.methods
      ensures PairKey(verb, r.path) == PairKey(verb', q.path) <==> verb == verb' && r.path == q.path
    {
      PairKeyIsInjective(verb, r.path, verb', q.path);
    }
    if !Unclaimed(r, q) {
      var verb :| verb in r.methods && verb in q.methods;
      assert PairKey(verb, r.path) in PairKeys(r) && PairKey(verb, r.path) in PairKeys(q);
    }
  }

  lemma UnclaimedSoFar(routes: seq<Route>, j: nat)
    requires j < |routes| && forall r :: r in routes ==> TidyRoute(r)
    ensures PairKeys(routes[j]) !! AllPairKeys(routes[..j]) <==> forall k :: 0 <= k < j ==> Unclaimed(routes[k], routes[j])
    ensures AllPairKeys(routes[..j + 1]) == AllPairKeys(routes[..j]) + PairKeys(routes[j])
  {
    var r := routes[j];
    forall k | 0 <= k < j ensures PairKeys(routes[k]) !! PairKeys(r) <==> Unclaimed(routes[k], r) {
      assert routes[k] in routes && r in routes;
      SharedPairKey(routes[k], r);
    }
    KeysOfPrefix(routes, j);
    assert routes[..j + 1] == routes[..j] + [r];
  }

  lemma KeysOfPrefix(routes: seq<Route>, j: nat)
    requires j < |routes|
    ensures PairKeys(routes[j]) !! AllPairKeys(routes[..j]) <==>
              forall k :: 0 <= k < j ==> PairKeys(routes[k]) !! PairKeys(routes[j])
  {
    var r := routes[j];
    if k :| 0 <= k < j && !(PairKeys(routes[k]) !! PairKeys(r)) {
      var key :| key in PairKeys(routes[k]) && key in PairKeys(r);
      assert routes[..j][k] == routes[k] && key in AllPairKeys(routes[..j]);
    }
    if key :| key in PairKeys(r) && key in AllPairKeys(routes[..j]) {
      var q, verb :| q in routes[..j] && verb in q.methods && key == PairKey(verb, q.path);
      var k :| 0 <= k < j && routes[k] == q;
      assert key in PairKeys(q);
    }
  }

  method ClaimLocalMethods(r: Route, claims: set<string>) returns (ok: bool, claims': set<string>)
    requires TidyRoute(r)
    ensures ok <==> PairKeys(r) !! claims
    ensures ok ==> claims' == claims + PairKeys(r)
  {
    claims' := claims;
    for k := 0 to |r.methods|
      invariant claims' == claims + set verb | verb in r.methods[..k] :: PairKey(verb, r.path)
      invariant forall verb :: verb in r.methods[..k] ==> PairKey(verb, r.path) !in claims
    {
      var key := PairKey(r.methods[k], r.path);
      EarlierPairs(r, k);
      assert r.methods[..k + 1] == r.methods[..k] + [r.methods[k]];
      if key in claims' {
        assert key in PairKeys(r) && key in claims;
        return false, claims';
      }
      claims' := claims' + {key};
    }
    assert r.methods[..|r.methods|] == r.methods;
    return true, claims';
  }

  lemma EarlierPairs(r: Route, k: nat)
    requires TidyRoute(r) && k < |r.methods|
    ensures forall verb :: verb in r.methods[..k] ==> PairKey(verb, r.path) != PairKey(r.methods[k], r.path)
  {
    forall verb | verb in r.methods[..k] ensures PairKey(verb, r.path) != PairKey(r.methods[k], r.path) {
      var j :| 0 <= j < k && r.methods[j] == verb;
      assert Differ(r.methods[j], r.methods[k]);
      PairKeyIsInjective(verb, r.path, r.methods[k], r.path);
    }
  }

  /** The local claims of a service: none twice, none on its health path. */
  method ClaimLocalRoutes(s: Service, routes: seq<Route>) returns (ok: bool)
    requires forall r :: r in routes ==> TidyRoute(r)
    ensures ok <==> ClaimsOk(s, routes)
  {
    var claims: set<string> := {};
    for j := 0 to |routes|
      invariant claims == AllPairKeys(routes[..j])
      invariant Pairwise(routes[..j], Unclaimed)
      invariant forall r :: r in routes[..j] ==> s.healthPath != Some(r.path)
    {
      var r := routes[j];
      assert r in routes;
      if s.healthPath == Some(r.path) { return false; }
      PrefixPairwise(routes, j, Unclaimed);
      UnclaimedSoFar(routes, j);
      var fine;
      fine, claims := ClaimLocalMethods(r, claims);
      if !fine {
        ghost var k :| 0 <= k < j && !Unclaimed(routes[k], routes[j]);
        return false;
      }
      assert routes[..j + 1] == routes[..j] + [r];
    }
    assert routes[..|routes|] == routes;
    if s.profile == Some(LOCALLLM_ADMISSION) {
      ClaimIsKey(routes, "/readyz", "GET");
      ClaimIsKey(routes, "/api/node/capabilities", "GET");
      if PairKey("GET", "/readyz") !in claims || PairKey("GET", "/api/node/capabilities") !in claims { return false; }
    }
    return true;
  }

  lemma ClaimIsKey(routes: seq<Route>, path: string, verb: string)
    requires NUL !in verb && forall r :: r in routes ==> TidyRoute(r)
    ensures PairKey(verb, path) in AllPairKeys(routes) <==> Claims(routes, path, verb)
  {
    if PairKey(verb, path) in AllPairKeys(routes) {
      var r, verb' :| r in routes && verb' in r.methods && PairKey(verb, path) == PairKey(verb', r.path);
      PairKeyIsInjective(verb, path, verb', r.path);
    }
  }

  lemma NormalRouteIsTidy(r: Route, profile: Option<string>)
    requires RouteOk(r, profile)
    ensures TidyRoute(SortedRoute(r))
  {
    RouteIsFixed(r, profile);
    forall verb | verb in SortedRoute(r).methods ensures NUL !in verb { MethodsHaveNoNul(verb); }
  }

  // ----- services

  lemma NormalRoutesAreTidy(s: Service, routes: seq<Route>)
    requires routes == Map(s.routes, SortedRoute) && forall r :: r in s.routes ==> RouteOk(r, s.profile)
    ensures forall r :: r in routes ==> TidyRoute(r)
  {
    forall r | r in routes ensures TidyRoute(r) {
      var j :| 0 <= j < |routes| && routes[j] == r;
      NormalRouteIsTidy(s.routes[j], s.profile);
    }
  }

  method NormalizeDomains(s: Service) returns (ok: bool)
    ensures ok <==> DomainsOk(s)
  {
    if |s.domains| > 16 || IsPrivate(s) != (s.domains == []) { return false; }
    if exists d :: d in s.domains && !DomainOk(d) { return false; }
    ok := AllDistinct(Map(s.domains, Lower));
  }

  method NormalizeRoutes(s: Service) returns (ok: bool)
    ensures ok <==> RoutesOk(s)
  {
    if !(1 <= |s.routes| <= 128) { return false; }
    var routes: seq<Route> := [];
    for j := 0 to |s.routes|
      invariant routes == Map(s.routes[..j], SortedRoute)
      invariant forall r :: r in s.routes[..j] ==> RouteOk(r, s.profile)
    {
      var route := NormalizeRoute(s.routes[j], s.profile);
      if route.None? { assert s.routes[j] in s.routes; return false; }
      routes := routes + [route.value];
      assert s.routes[..j + 1] == s.routes[..j] + [s.routes[j]];
    }
    assert s.routes[..|s.routes|] == s.routes;
    NormalRoutesAreTidy(s, routes);
    ok := ClaimLocalRoutes(s, routes);
  }

  method NormalizeService(s: Service) returns (result: Option<Service>)
    ensures result == if ServiceOk(s) then Some(NormalService(s)) else None
    ensures result.Some? <==> Acceptance.GoodService(s) && Acceptance.GoodDomains(s) && Acceptance.GoodRoutes(s)
    ensures result.Some? ==> Inputs.ServiceKept(s, result.value)
  {
    Acceptance.ServiceAgrees(s);
    if ServiceOk(s) { Inputs.ServiceIsKept(s); }
    if !ServiceFieldsOk(s) { return None; }
    var domains := NormalizeDomains(s);
    if !domains { return None; }
    var routes := NormalizeRoutes(s);
    if !routes { return None; }
    return Some(NormalService(s));
  }

  lemma NormalServiceIsTidy(s: Service)
    requires ServiceOk(s)
    ensures TidyService(NormalService(s))
  {
    ServiceIsFixed(s);
    var n := NormalService(s);
    forall r | r in n.routes ensures TidyRoute(r) { RoutesAreTidy(s, r); }
    forall d | d in n.domains ensures NUL !in d {
      LowDomain(s, d);
      DomainsHaveNoNul(d);
    }
    SortedClaims(s);
  }

  lemma RoutesAreTidy(s: Service, r: Route)
    requires ServiceOk(s) && r in NormalService(s).routes
    ensures TidyRoute(r)
  {
    var routes := Map(s.routes, SortedRoute);
    SortHasMembers(routes, RouteBefore);
    var i :| 0 <= i < |routes| && routes[i] == r;
    assert s.routes[i] in s.routes;
    NormalRouteIsTidy(s.routes[i], s.profile);
  }

  lemma LowDomain(s: Service, d: string)
    requires ServiceOk(s) && d in NormalService(s).domains
    ensures DomainOk(d) && Lower(d) == d
  {
    var low := Map(s.domains, Lower);
    SortHasMembers(low, Before);
    var i :| 0 <= i < |low| && low[i] == d;
    assert s.domains[i] in s.domains;
    LowerIsIdempotent(s.domains[i]);
  }

  lemma SortedClaims(s: Service)
    requires ServiceOk(s)
    ensures Pairwise(NormalService(s).routes, Unclaimed) && Pairwise(NormalService(s).domains, Differ)
  {
    SortReorders(Map(s.routes, SortedRoute), RouteBefore);
    SymmetricChecks();
    PairwiseIsOrderFree(Map(s.routes, SortedRoute), NormalService(s).routes, Unclaimed);
    SortReorders(Map(s.domains, Lower), Before);
    PairwiseIsOrderFree(Map(s.domains, Lower), NormalService(s).domains, Differ);
  }

  // ----- the edge

  method NormalizeListeners(listeners: seq<PrivateListener>) returns (ok: bool)
    ensures ok <==> ListenersOk(listeners)
  {
    if |listeners| > 128 { return false; }
    var services: set<string>, addresses: set<Address> := {}, {};
    for i := 0 to |listeners|
      invariant services == set p | p in listeners[..i] :: p.service
      invariant addresses == set p | p in listeners[..i] :: p.listen
      invariant forall p :: p in listeners[..i] ==> ListenerOk(p)
      invariant Pairwise(listeners[..i], ListenersDiffer)
    {
      var p := listeners[i];
      assert p in listeners;
      if !ListenerOk(p) { return false; }
      PrefixPairwise(listeners, i, ListenersDiffer);
      assert listeners[..i + 1] == listeners[..i] + [p];
      if p.service in services || p.listen in addresses {
        ghost var q :| q in listeners[..i] && (q.service == p.service || q.listen == p.listen);
        ghost var k :| 0 <= k < i && listeners[k] == q;
        assert !ListenersDiffer(listeners[k], listeners[i]);
        return false;
      }
      services, addresses := services + {p.service}, addresses + {p.listen};
    }
    assert listeners[..|listeners|] == listeners;
    return true;
  }

  function HostOf(s: Site): string { s.host }

  method NormalizeSites(sites: seq<Site>) returns (ok: bool)
    ensures ok <==> SitesOk(sites)
  {
    if |sites| > 32 || exists s :: s in sites && !SiteOk(s) { return false; }
    var normal := Map(sites, NormalSite);
    ok := AllDistinct(Map(normal, HostOf));
    DistinctHosts(normal);
  }

  lemma DistinctHosts(sites: seq<Site>)
    ensures Pairwise(Map(sites, HostOf), Differ) <==> Pairwise(sites, HostsDiffer)
  {
    var hosts := Map(sites, HostOf);
    assert forall i :: 0 <= i < |sites| ==> hosts[i] == sites[i].host;
    if Pairwise(hosts, Differ) {
      forall i, j | 0 <= i < j < |sites| ensures HostsDiffer(sites[i], sites[j]) { assert Differ(hosts[i], hosts[j]); }
    }
    if Pairwise(sites, HostsDiffer) {
      forall i, j | 0 <= i < j < |hosts| ensures Differ(hosts[i], hosts[j]) { assert HostsDiffer(sites[i], sites[j]); }
    }
  }

  method NormalizeEdge(e: Edge) returns (result: Option<Edge>)
    ensures result == if EdgeOk(e) then Some(NormalEdge(e)) else None
    ensures result.Some? <==> Acceptance.GoodEdge(e)
  {
    Acceptance.EdgeAgrees(e);
    if !IsListener(e.gatewayListen)
       || !InRange(e.httpPort, DEFAULT_HTTP_PORT, 1024, 65535) || !InRange(e.httpsPort, DEFAULT_HTTPS_PORT, 1024, 65535)
       || Default(e.httpPort, DEFAULT_HTTP_PORT) == Default(e.httpsPort, DEFAULT_HTTPS_PORT)
    { return None; }
    if e.compatibilityListen.Some?
       && (!IsListener(e.compatibilityListen.value) || e.compatibilityListen.value == e.gatewayListen)
    { return None; }
    if e.compatibilityService.Some? && !IsName(e.compatibilityService.value) { return None; }
    var listeners := NormalizeListeners(Listed(e.privateListeners));
    if !listeners { return None; }
    var sites := NormalizeSites(Listed(e.existingSites));
    if !sites { return None; }
    return Some(NormalEdge(e));
  }

  // ----- ports

  ghost function Ports(ports: seq<int>): set<int> { set p | p in ports }

  /** claimEdgePort, on a run of ports; `taken` is what was claimed before. */
  method ClaimEdgePorts(ports: seq<int>, claimant: string, binders: map<int, string>, ghost taken: seq<int>)
    returns (ok: bool, binders': map<int, string>)
    requires Pairwise(taken, Differ) && binders.Keys == Ports(taken)
    ensures ok <==> Pairwise(taken + ports, Differ)
    ensures ok ==> binders'.Keys == Ports(taken + ports)
  {
    binders' := binders;
    ghost var all := taken + ports;
    assert all[..|taken|] == taken;
    for i := 0 to |ports|
      invariant Pairwise(all[..|taken| + i], Differ)
      invariant binders'.Keys == Ports(all[..|taken| + i])
    {
      PrefixPairwise(all, |taken| + i, Differ);
      assert all[|taken| + i] == ports[i];
      assert all[..|taken| + i + 1] == all[..|taken| + i] + [ports[i]];
      if ports[i] in binders' {
        ghost var k :| 0 <= k < |taken| + i && all[k] == ports[i];
        assert !Differ(all[k], all[|taken| + i]);
        return false, binders';
      }
      binders' := binders'[ports[i] := claimant];
    }
    assert all[..|taken| + |ports|] == all;
    return true, binders';
  }

  method CheckPorts(e: Edge, t: Transport, services: seq<Service>) returns (ok: bool)
    ensures ok <==> PortsOk(e, t, services)
  {
    ghost var all := EdgePorts(e, t, services);
    var listening := [e.gatewayListen.port] + OptionalPort(e.compatibilityListen) + Map(Listed(e.privateListeners), ListenPort);
    var fixedPorts := [Default(e.httpPort, DEFAULT_HTTP_PORT), Default(e.httpsPort, DEFAULT_HTTPS_PORT), Default(t.sshPort, DEFAULT_SSH_PORT)];
    assert all == listening + fixedPorts + Map(services, UpstreamPort) && [] + listening == listening;
    var fine, binders := ClaimEdgePorts(listening, "listen", map[], []);
    if !fine { NoPrefix(all, listening); return false; }
    fine, binders := ClaimEdgePorts(fixedPorts, "port", binders, listening);
    if !fine { NoPrefix(all, listening + fixedPorts); return false; }
    fine, binders := ClaimEdgePorts(Map(services, UpstreamPort), "upstream", binders, listening + fixedPorts);
    if !fine { return false; }
    if exists site :: site in Listed(e.existingSites) && site.upstream.port in binders { return false; }
    if exists a, b :: a in services && b in services && a.target.port == b.listen.port { return false; }
    return true;
  }

  lemma NoPrefix(all: seq<int>, part: seq<int>)
    requires part <= all && !Pairwise(part, Differ)
    ensures !Pairwise(all, Differ)
  {
    var i, j :| 0 <= i < j < |part| && !Differ(part[i], part[j]);
    assert all[i] == part[i] && all[j] == part[j];
  }

  // ----- the manifest

  method NormalizeManifest(m: Manifest) returns (result: Option<Manifest>)
    ensures result == Normalize(m)
    ensures result.Some? <==> Acceptance.WellFormed(m)
    ensures result.Some? ==>
      && result.value == m.(edge := result.value.edge, transport := result.value.transport, services := result.value.services)
      && ReorderedAlike(m.services, result.value.services, Inputs.ServiceKept)
      && Inputs.EdgeKept(m.edge, m.services, result.value.edge)
      && Inputs.TransportKept(m.transport, result.value.transport)
  {
    Acceptance.AcceptedExactly(m);
    if Normalize(m).Some? { Inputs.NormalizeKeeps(m); }
    if !HeadOk(m) { return None; }
    var services := NormalizeServices(m.services);
    if services.None? { return None; }
    var edge := NormalizeEdge(m.edge);
    if edge.None? || !TransportOk(m.transport) { return None; }
    var linked := CheckLinks(edge.value, m.transport, services.value);
    LinksCheckedSorted(edge.value, m.transport, Map(m.services, NormalService), services.value);
    if !linked { return None; }
    return Some(NormalForm(m));
  }

  /** Every service normalised, then sorted, then checked against each other. */
  method NormalizeServices(services: seq<Service>) returns (result: Option<seq<Service>>)
    ensures result == if ServicesOk(services) then Some(Sort(Map(services, NormalService), ServiceBefore)) else None
    ensures result.Some? ==> Reordered(Map(services, NormalService), result.value)
    ensures result.Some? ==> Reordered(result.value, Map(services, NormalService))
  {
    if !(1 <= |services| <= 128) { return None; }
    var normal := NormalizeEach(services);
    if normal.None? { return None; }
    var sorted := Sort(normal.value, ServiceBefore);
    SortReorders(normal.value, ServiceBefore);
    ReorderedSymmetric(normal.value, sorted);
    NormalServicesAreTidy(services, normal.value, sorted);
    var claimed := ClaimServices(sorted);
    ServicesCheckedSorted(normal.value, sorted);
    if !claimed { return None; }
    return Some(sorted);
  }

  method NormalizeEach(services: seq<Service>) returns (result: Option<seq<Service>>)
    ensures result == if forall s :: s in services ==> ServiceOk(s) then Some(Map(services, NormalService)) else None
  {
    var normal: seq<Service> := [];
    for i := 0 to |services|
      invariant normal == Map(services[..i], NormalService)
      invariant forall s :: s in services[..i] ==> ServiceOk(s)
    {
      var s := NormalizeService(services[i]);
      if s.None? { assert services[i] in services; return None; }
      normal := normal + [s.value];
      assert services[..i + 1] == services[..i] + [services[i]];
    }
    assert services[..|services|] == services;
    return Some(normal);
  }

  method CheckLinks(e: Edge, t: Transport, services: seq<Service>) returns (ok: bool)
    ensures ok <==> Linked(e, t, services)
  {
    if !CompatibilityOk(e, services) { return false; }
    var served: set<string> := {};
    var listeners := Listed(e.privateListeners);
    for i := 0 to |listeners|
      invariant served == set p | p in listeners[..i] :: p.service
      invariant forall p :: p in listeners[..i] ==> Serves(services, p.service, false)
    {
      assert listeners[..i + 1] == listeners[..i] + [listeners[i]];
      if !Serves(services, listeners[i].service, false) { assert listeners[i] in listeners; return false; }
      served := served + {listeners[i].service};
    }
    assert listeners[..|listeners|] == listeners;
    if exists s :: s in services && IsPrivate(s) && s.id !in served { return false; }
    if !SitesApart(Listed(e.existingSites), services) { return false; }
    ok := CheckPorts(e, t, services);
  }

  lemma NormalServicesAreTidy(raw: seq<Service>, normal: seq<Service>, sorted: seq<Service>)
    requires normal == Map(raw, NormalService) && (forall s :: s in raw ==> ServiceOk(s)) && Reordered(normal, sorted)
    ensures forall s :: s in sorted ==> TidyService(s)
  {
    ReorderedHasMembers(normal, sorted);
    forall s | s in sorted ensures TidyService(s) {
      var i :| 0 <= i < |normal| && normal[i] == s;
      assert raw[i] in raw;
      NormalServiceIsTidy(raw[i]);
    }
  }

  lemma ServicesCheckedSorted(normal: seq<Service>, sorted: seq<Service>)
    requires Reordered(normal, sorted) && Reordered(sorted, normal)
    ensures Pairwise(sorted, Compatible) <==> Pairwise(normal, Compatible)
  {
    SymmetricChecks();
    if Pairwise(sorted, Compatible) { PairwiseIsOrderFree(sorted, normal, Compatible); }
    if Pairwise(normal, Compatible) { PairwiseIsOrderFree(normal, sorted, Compatible); }
  }

  lemma LinksCheckedSorted(e: Edge, t: Transport, normal: seq<Service>, sorted: seq<Service>)
    requires Reordered(normal, sorted) && Reordered(sorted, normal)
    ensures Linked(e, t, sorted) <==> Linked(e, t, normal)
  {
    if Linked(e, t, sorted) { LinkedIsOrderFree(e, t, sorted, normal); }
    if Linked(e, t, normal) { LinkedIsOrderFree(e, t, normal, sorted); }
  }
}

/** Normal forms of manifests: normalising again changes nothing, and neither does
    reordering services, domains, routes, methods, private listeners or existing sites. */
module ManifestCanonical {
  import opened Results
  import opened Texts
  import opened Sorting
  import opened Reordering
  import opened ManifestScalars
  import opened ManifestParts
  import opened Manifests
  import opened ManifestOrders

  // ----- lists whose elements the comparator tells apart

  /** A sorted list is sorted again to itself and keeps the uniqueness that was checked. */
  lemma SortedAgain<T(!new)>(s: seq<T>, less: (T, T) -> bool, ok: (T, T) -> bool)
    requires StrictOrder(less) && Separated(s, less) && Symmetric(ok) && Pairwise(s, ok)
    ensures var r := Sort(s, less);
            && Sort(r, less) == r && Pairwise(r, ok) && Reordered(s, r)
            && |r| == |s| && forall x :: x in r <==> x in s
  {
    SortIncreases(s, less);
    SortFixes(Sort(s, less), less);
    SortReorders(s, less);
    PairwiseIsOrderFree(s, Sort(s, less), ok);
    SortHasMembers(s, less);
  }

  // ----- routes

  ghost predicate RouteAlike(r: Route, q: Route) { r.path == q.path && Reordered(r.methods, q.methods) }

  lemma RouteIsOrderFree(r: Route, q: Route, profile: Option<string>)
    requires RouteOk(r, profile) && RouteAlike(r, q)
    ensures RouteOk(q, profile) && SortedRoute(q) == SortedRoute(r)
  {
    ReorderedHasMembers(r.methods, q.methods);
    PairwiseIsOrderFree(r.methods, q.methods, Differ);
    TextsSeparated(r.methods);
    TextsSeparated(q.methods);
    TextOrder();
    SortIsOrderFree(r.methods, q.methods, Before);
  }

  lemma RouteIsFixed(r: Route, profile: Option<string>)
    requires RouteOk(r, profile)
    ensures RouteOk(SortedRoute(r), profile) && SortedRoute(SortedRoute(r)) == SortedRoute(r)
    ensures ProperRoute(SortedRoute(r))
  {
    SortReorders(r.methods, Before);
    RouteIsOrderFree(r, SortedRoute(r), profile);
  }

  lemma ClaimsAreOrderFree(s: Service, a: seq<Route>, b: seq<Route>)
    requires Reordered(a, b) && ClaimsOk(s, a)
    ensures ClaimsOk(s, b)
  {
    ReorderedHasMembers(a, b);
    SymmetricChecks();
    PairwiseIsOrderFree(a, b, Unclaimed);
  }

  lemma NormalRoutesAreSeparated(s: Service)
    requires RoutesOk(s)
    ensures Separated(Map(s.routes, SortedRoute), RouteBefore)
  {
    var routes := Map(s.routes, SortedRoute);
    forall r | r in routes ensures ProperRoute(r) {
      var i :| 0 <= i < |routes| && routes[i] == r;
      assert s.routes[i] in s.routes;
      RouteIsFixed(s.routes[i], s.profile);
    }
    RoutesSeparated(routes);
  }

  // ----- services

  ghost predicate ServiceAlike(s: Service, t: Service) {
    && t == s.(domains := t.domains, routes := t.routes)
    && Reordered(s.domains, t.domains)
    && ReorderedAlike(s.routes, t.routes, RouteAlike)
  }

  lemma DomainsAreOrderFree(s: Service, t: Service)
    requires DomainsOk(s) && Reordered(s.domains, t.domains) && t.exposure == s.exposure
    ensures DomainsOk(t) && Sort(Map(t.domains, Lower), Before) == Sort(Map(s.domains, Lower), Before)
  {
    var a, b := Map(s.domains, Lower), Map(t.domains, Lower);
    ReorderedHasMembers(s.domains, t.domains);
    MapOfReordered(s.domains, t.domains, Lower);
    PairwiseIsOrderFree(a, b, Differ);
    TextsSeparated(a);
    TextsSeparated(b);
    TextOrder();
    SortIsOrderFree(a, b, Before);
  }

  lemma RoutesAreOrderFree(s: Service, t: Service)
    requires RoutesOk(s) && ReorderedAlike(s.routes, t.routes, RouteAlike)
    requires t.profile == s.profile && t.healthPath == s.healthPath
    ensures RoutesOk(t)
    ensures Sort(Map(t.routes, SortedRoute), RouteBefore) == Sort(Map(s.routes, SortedRoute), RouteBefore)
  {
    forall x, y | x in s.routes && RouteAlike(x, y) ensures SortedRoute(x) == SortedRoute(y) {
      RouteIsOrderFree(x, y, s.profile);
    }
    MapReorders(s.routes, t.routes, RouteAlike, SortedRoute);
    forall y | y in t.routes ensures RouteOk(y, t.profile) {
      var x := AlikeOrigin(s.routes, t.routes, RouteAlike, y);
      RouteIsOrderFree(x, y, s.profile);
    }
    var a, b := Map(s.routes, SortedRoute), Map(t.routes, SortedRoute);
    ClaimsAreOrderFree(s, a, b);
    assert |a| == |s.routes| && |b| == |t.routes|;
    ReorderedHasMembers(a, b);
    NormalRoutesAreSeparated(s);
    NormalRoutesAreSeparated(t);
    RouteOrder();
    SortIsOrderFree(a, b, RouteBefore);
  }

  lemma ServiceIsOrderFree(s: Service, t: Service)
    requires ServiceOk(s) && ServiceAlike(s, t)
    ensures ServiceOk(t) && NormalService(t) == NormalService(s)
  {
    DomainsAreOrderFree(s, t);
    RoutesAreOrderFree(s, t);
  }

  lemma DomainsAreFixed(s: Service)
    requires DomainsOk(s)
    ensures DomainsOk(NormalService(s))
    ensures NormalService(NormalService(s)).domains == NormalService(s).domains
  {
    var low := Map(s.domains, Lower);
    var sorted := Sort(low, Before);
    TextsSeparated(low);
    TextOrder();
    SortedAgain(low, Before, Differ);
    forall d | d in sorted ensures Lower(d) == d && DomainOk(d) {
      var i :| 0 <= i < |low| && low[i] == d;
      assert s.domains[i] in s.domains;
      LowerIsIdempotent(s.domains[i]);
    }
    MapFixes(sorted, Lower);
  }

  lemma RoutesAreFixed(s: Service)
    requires RoutesOk(s)
    ensures RoutesOk(NormalService(s))
    ensures NormalService(NormalService(s)).routes == NormalService(s).routes
  {
    var routes := Map(s.routes, SortedRoute);
    var sorted := Sort(routes, RouteBefore);
    NormalRoutesAreSeparated(s);
    RouteOrder();
    SymmetricChecks();
    SortedAgain(routes, RouteBefore, Unclaimed);
    forall r | r in sorted ensures SortedRoute(r) == r && RouteOk(r, s.profile) {
      var i :| 0 <= i < |routes| && routes[i] == r;
      assert s.routes[i] in s.routes;
      RouteIsFixed(s.routes[i], s.profile);
    }
    MapFixes(sorted, SortedRoute);
    ClaimsAreOrderFree(s, routes, sorted);
  }

  lemma ServiceIsFixed(s: Service)
    requires ServiceOk(s)
    ensures ServiceOk(NormalService(s)) && NormalService(NormalService(s)) == NormalService(s)
  {
    DomainsAreFixed(s);
    RoutesAreFixed(s);
  }

  // ----- the edge

  ghost predicate SameListing<T>(a: Option<seq<T>>, b: Option<seq<T>>) {
    a.Some? == b.Some? && (a.Some? ==> Reordered(a.value, b.value))
  }

  ghost predicate EdgeAlike(e: Edge, f: Edge) {
    && f == e.(privateListeners := f.privateListeners, existingSites := f.existingSites)
    && SameListing(e.privateListeners, f.privateListeners)
    && SameListing(e.existingSites, f.existingSites)
  }

  lemma ListenersAreOrderFree(a: seq<PrivateListener>, b: seq<PrivateListener>)
    requires ListenersOk(a) && Reordered(a, b)
    ensures ListenersOk(b) && Sort(b, ListenerBefore) == Sort(a, ListenerBefore)
  {
    ReorderedHasMembers(a, b);
    SymmetricChecks();
    PairwiseIsOrderFree(a, b, ListenersDiffer);
    ListenersSeparated(a);
    ListenersSeparated(b);
    NameOrders();
    SortIsOrderFree(a, b, ListenerBefore);
  }

  lemma SitesAreOrderFree(a: seq<Site>, b: seq<Site>)
    requires SitesOk(a) && Reordered(a, b)
    ensures SitesOk(b) && Sort(Map(b, NormalSite), SiteBefore) == Sort(Map(a, NormalSite), SiteBefore)
  {
    ReorderedHasMembers(a, b);
    MapOfReordered(a, b, NormalSite);
    SymmetricChecks();
    PairwiseIsOrderFree(Map(a, NormalSite), Map(b, NormalSite), HostsDiffer);
    SitesSeparated(Map(a, NormalSite));
    SitesSeparated(Map(b, NormalSite));
    NameOrders();
    SortIsOrderFree(Map(a, NormalSite), Map(b, NormalSite), SiteBefore);
  }

  lemma EdgeIsOrderFree(e: Edge, f: Edge)
    requires EdgeOk(e) && EdgeAlike(e, f)
    ensures EdgeOk(f) && NormalEdge(f) == NormalEdge(e)
  {
    if e.privateListeners.Some? {
      ListenersAreOrderFree(e.privateListeners.value, f.privateListeners.value);
      ReorderedHasMembers(e.privateListeners.value, f.privateListeners.value);
    }
    if e.existingSites.Some? { SitesAreOrderFree(e.existingSites.value, f.existingSites.value); }
  }

  lemma ListenersAreFixed(a: seq<PrivateListener>)
    requires ListenersOk(a)
    ensures var r := Sort(a, ListenerBefore); ListenersOk(r) && Sort(r, ListenerBefore) == r && |r| == |a|
  {
    ListenersSeparated(a);
    NameOrders();
    SymmetricChecks();
    SortedAgain(a, ListenerBefore, ListenersDiffer);
  }

  lemma SitesAreFixed(a: seq<Site>)
    requires SitesOk(a)
    ensures var r := Sort(Map(a, NormalSite), SiteBefore);
            SitesOk(r) && Sort(Map(r, NormalSite), SiteBefore) == r
  {
    var normal := Map(a, NormalSite);
    var r := Sort(normal, SiteBefore);
    SitesSeparated(normal);
    NameOrders();
    SymmetricChecks();
    SortedAgain(normal, SiteBefore, HostsDiffer);
    forall s | s in r ensures SiteOk(s) && NormalSite(s) == s {
      var i :| 0 <= i < |normal| && normal[i] == s;
      assert a[i] in a;
      LowerIsIdempotent(a[i].host);
      if a[i].tlsServerName.Some? { LowerIsIdempotent(a[i].tlsServerName.value); }
    }
    MapFixes(r, NormalSite);
  }

  lemma EdgeIsFixed(e: Edge)
    requires EdgeOk(e)
    ensures EdgeOk(NormalEdge(e)) && NormalEdge(NormalEdge(e)) == NormalEdge(e)
  {
    if e.privateListeners.Some? { ListenersAreFixed(e.privateListeners.value); }
    if e.existingSites.Some? { SitesAreFixed(e.existingSites.value); }
  }

  lemma TransportIsFixed(t: Transport)
    requires TransportOk(t)
    ensures TransportOk(NormalTransport(t)) && NormalTransport(NormalTransport(t)) == NormalTransport(t)
  {
    LowerIsIdempotent(t.sshHost.value);
  }

  // ----- the checks across the parts

  lemma EdgePortsReordered(e: Edge, t: Transport, a: seq<Service>, b: seq<Service>)
    requires Reordered(a, b)
    ensures Reordered(EdgePorts(e, t, a), EdgePorts(e, t, b))
  {
    MapOfReordered(a, b, UpstreamPort);
    AppendReordered(
      [e.gatewayListen.port] + OptionalPort(e.compatibilityListen) + Map(Listed(e.privateListeners), ListenPort)
      + [Default(e.httpPort, DEFAULT_HTTP_PORT), Default(e.httpsPort, DEFAULT_HTTPS_PORT), Default(t.sshPort, DEFAULT_SSH_PORT)],
      Map(a, UpstreamPort), Map(b, UpstreamPort));
  }

  lemma PortsAreOrderFree(e: Edge, t: Transport, a: seq<Service>, b: seq<Service>)
    requires Reordered(a, b) && PortsOk(e, t, a)
    ensures PortsOk(e, t, b)
  {
    ReorderedHasMembers(a, b);
    EdgePortsReordered(e, t, a, b);
    PairwiseIsOrderFree(EdgePorts(e, t, a), EdgePorts(e, t, b), Differ);
    ReorderedHasMembers(EdgePorts(e, t, a), EdgePorts(e, t, b));
  }

  lemma LinkedIsOrderFree(e: Edge, t: Transport, a: seq<Service>, b: seq<Service>)
    requires Reordered(a, b) && Linked(e, t, a)
    ensures Linked(e, t, b) && Selected(e, b) == Selected(e, a)
  {
    ReorderedHasMembers(a, b);
    if |a| == 1 { assert b[0] in b; }
    PortsAreOrderFree(e, t, a, b);
  }

  lemma ServicesReordered(m: seq<Service>, k: seq<Service>)
    requires ServicesOk(m) && ReorderedAlike(m, k, ServiceAlike)
    ensures ServicesOk(k) && Reordered(Map(m, NormalService), Map(k, NormalService))
  {
    forall s, t | s in m && ServiceAlike(s, t) ensures NormalService(s) == NormalService(t) { ServiceIsOrderFree(s, t); }
    MapReorders(m, k, ServiceAlike, NormalService);
    forall t | t in k ensures ServiceOk(t) {
      var s := AlikeOrigin(m, k, ServiceAlike, t);
      ServiceIsOrderFree(s, t);
    }
    SymmetricChecks();
    PairwiseIsOrderFree(Map(m, NormalService), Map(k, NormalService), Compatible);
    ReorderedHasMembers(Map(m, NormalService), Map(k, NormalService));
    assert |Map(m, NormalService)| == |m| && |Map(k, NormalService)| == |k|;
  }

  // ----- the theorems

  /** The same manifest up to the order of its lists. */
  ghost predicate ManifestAlike(m: Manifest, k: Manifest) {
    && k == m.(edge := k.edge, services := k.services)
    && EdgeAlike(m.edge, k.edge)
    && ReorderedAlike(m.services, k.services, ServiceAlike)
  }

  lemma AcceptedIsOrderFree(m: Manifest, k: Manifest)
    requires ManifestAlike(m, k) && Accepted(m)
    ensures Accepted(k) && NormalForm(k) == NormalForm(m)
  {
    var a, b := Map(m.services, NormalService), Map(k.services, NormalService);
    EdgeIsOrderFree(m.edge, k.edge);
    ServicesReordered(m.services, k.services);
    LinkedIsOrderFree(NormalEdge(m.edge), m.transport, a, b);
    ServicesSeparated(a);
    ServicesSeparated(b);
    NameOrders();
    SortIsOrderFree(a, b, ServiceBefore);
  }

  /** Reordering leaves acceptance and the normalised result unchanged. */
  lemma ReorderingChangesNothing(m: Manifest, k: Manifest)
    requires ManifestAlike(m, k)
    ensures Normalize(k) == Normalize(m)
  {
    AlikeSymmetric(m, k);
    if Accepted(m) { AcceptedIsOrderFree(m, k); }
    if Accepted(k) { AcceptedIsOrderFree(k, m); }
  }

  lemma AlikeSymmetric(m: Manifest, k: Manifest)
    requires ManifestAlike(m, k)
    ensures ManifestAlike(k, m)
  {
    forall r, q | RouteAlike(r, q) ensures RouteAlike(q, r) { ReorderedSymmetric(r.methods, q.methods); }
    forall s, t | ServiceAlike(s, t) ensures ServiceAlike(t, s) {
      ReorderedSymmetric(s.domains, t.domains);
      ReorderedAlikeSymmetric(s.routes, t.routes, RouteAlike);
    }
    ReorderedAlikeSymmetric(m.services, k.services, ServiceAlike);
    if m.edge.privateListeners.Some? { ReorderedSymmetric(m.edge.privateListeners.value, k.edge.privateListeners.value); }
    if m.edge.existingSites.Some? { ReorderedSymmetric(m.edge.existingSites.value, k.edge.existingSites.value); }
  }

  lemma ServicesAreFixed(services: seq<Service>)
    requires ServicesOk(services)
    ensures var normal := Map(services, NormalService); var r := Sort(normal, ServiceBefore);
            && ServicesOk(r) && Map(r, NormalService) == r && Sort(r, ServiceBefore) == r && Reordered(normal, r)
  {
    var normal := Map(services, NormalService);
    var r := Sort(normal, ServiceBefore);
    ServicesSeparated(normal);
    NameOrders();
    SymmetricChecks();
    SortedAgain(normal, ServiceBefore, Compatible);
    forall s | s in r ensures ServiceOk(s) && NormalService(s) == s {
      var i :| 0 <= i < |normal| && normal[i] == s;
      assert services[i] in services;
      ServiceIsFixed(services[i]);
    }
    MapFixes(r, NormalService);
  }

  /** The compatibility service, once selected, is selected again. */
  lemma SelectionIsFixed(e: Edge, t: Transport, services: seq<Service>)
    requires Linked(e, t, services) && e.compatibilityListen.Some?
    requires forall s :: s in services ==> IsName(s.id)
    ensures var f := e.(compatibilityService := Selected(e, services));
            Linked(f, t, services) && Selected(f, services) == f.compatibilityService && IsName(f.compatibilityService.value)
  {
    var f := e.(compatibilityService := Selected(e, services));
    assert EdgePorts(f, t, services) == EdgePorts(e, t, services);
  }

  /** Normalising twice is normalising once. */
  lemma NormalizeIsIdempotent(m: Manifest)
    requires Normalize(m).Some?
    ensures Normalize(Normalize(m).value) == Normalize(m)
  {
    var n := NormalForm(m);
    var normal := Map(m.services, NormalService);
    ServicesAreFixed(m.services);
    EdgeIsFixed(m.edge);
    TransportIsFixed(m.transport);
    LinkedIsOrderFree(NormalEdge(m.edge), m.transport, normal, n.services);
    if n.edge.compatibilityListen.Some? { SelectionIsFixed(NormalEdge(m.edge), m.transport, n.services); }
    NormalTransportKeepsPorts(n.edge, m.transport, n.services);
    assert NormalEdge(n.edge) == n.edge;
  }

  lemma NormalTransportKeepsPorts(e: Edge, t: Transport, services: seq<Service>)
    ensures Linked(e, NormalTransport(t), services) <==> Linked(e, t, services)
  {
    assert EdgePorts(e, NormalTransport(t), services) == EdgePorts(e, t, services);
  }
}

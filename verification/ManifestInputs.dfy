/** What normalizeManifest keeps of its input, field by field, and therefore which inputs
    have the same normal form and the same digest. */
module ManifestInputs {
  import opened Results
  import opened Texts
  import opened Sorting
  import opened Reordering
  import opened ManifestScalars
  import opened ManifestParts
  import opened Manifests
  import opened ManifestOrders
  import opened ManifestCanonical
  import ManifestDigest

  // ----- from input to result

  /** A limit is the given value, or the default. */
  predicate Kept(result: Option<int>, given: Option<int>, fallback: int) {
    result == Some(if given.Some? then given.value else fallback)
  }

  /** The same path with the same methods, in some order. */
  ghost predicate RouteKept(r: Route, result: Route) { result.path == r.path && Reordered(r.methods, result.methods) }

  function Lowered(texts: seq<string>): seq<string> { Map(texts, Lower) }

  /** The result of a service, from its fields. */
  ghost predicate ServiceKept(s: Service, result: Service) {
    && result.id == s.id && result.profile == s.profile && result.tokenSet == s.tokenSet
    && result.upstream == s.upstream && result.listen == s.listen && result.target == s.target
    && result.healthPath == s.healthPath
    && result.exposure == (if s.exposure == Some("private") then Some("private") else None)
    && Reordered(Lowered(s.domains), result.domains)
    && ReorderedAlike(s.routes, result.routes, RouteKept)
    && Kept(result.maxBodyBytes, s.maxBodyBytes, 1_048_576)
    && Kept(result.maxConcurrentRequests, s.maxConcurrentRequests, 4)
    && Kept(result.idleTimeoutSeconds, s.idleTimeoutSeconds, 900)
    && (result.forwardCookies == Some(true) <==> s.forwardCookies == Some(true))
    && result.forwardCookies != Some(false)
  }

  predicate SiteKept(s: Site, result: Site) {
    && result.host == Lower(s.host) && result.secure == s.secure && result.upstream == s.upstream
    && result.tlsServerName.Some? == s.tlsServerName.Some?
    && (s.tlsServerName.Some? ==> result.tlsServerName.value == Lower(s.tlsServerName.value))
  }

  ghost predicate EdgeKept(e: Edge, services: seq<Service>, result: Edge) {
    && result.gatewayListen == e.gatewayListen && result.compatibilityListen == e.compatibilityListen
    && Kept(result.httpPort, e.httpPort, 10_080) && Kept(result.httpsPort, e.httpsPort, 10_443)
    && (e.compatibilityListen == None ==> result.compatibilityService == None)
    && (e.compatibilityListen.Some? ==>
          result.compatibilityService ==
            (if e.compatibilityService.Some? || services == [] then e.compatibilityService else Some(services[0].id)))
    && (result.privateListeners == None <==> Listed(e.privateListeners) == [])
    && Reordered(Listed(e.privateListeners), Listed(result.privateListeners))
    && (result.existingSites == None <==> e.existingSites == None)
    && ReorderedAlike(Listed(e.existingSites), Listed(result.existingSites), SiteKept)
  }

  predicate TransportKept(t: Transport, result: Transport) {
    && result.provider == t.provider && result.sshUser == t.sshUser && result.sshPort == t.sshPort
    && result.hostKeyAlias == t.hostKeyAlias
    && t.sshHost.Some? && result.sshHost == Some(Lower(t.sshHost.value))
  }

  // ----- lists whose elements change while they are reordered

  lemma MapThenReordered<T(!new)>(a: seq<T>, f: T -> T, b: seq<T>, kept: (T, T) -> bool)
    requires Reordered(Map(a, f), b) && forall x :: x in a ==> kept(x, f(x))
    ensures ReorderedAlike(a, b, kept)
  {
    var p, q :| Along(Map(a, f), b, p, q);
    forall i | 0 <= i < |a| ensures kept(a[i], b[p[i]]) {
      assert b[p[i]] == Map(a, f)[i] == f(a[i]);
      assert a[i] in a;
    }
    assert AlongAlike(a, b, p, q, kept);
  }

  lemma RouteIsKept(r: Route)
    ensures RouteKept(r, SortedRoute(r))
  {
    SortReorders(r.methods, Before);
  }

  lemma ServiceIsKept(s: Service)
    requires ServiceOk(s)
    ensures ServiceKept(s, NormalService(s))
  {
    SortReorders(Map(s.domains, Lower), Before);
    SortReorders(Map(s.routes, SortedRoute), RouteBefore);
    forall r | r in s.routes ensures RouteKept(r, SortedRoute(r)) { RouteIsKept(r); }
    MapThenReordered(s.routes, SortedRoute, Sort(Map(s.routes, SortedRoute), RouteBefore), RouteKept);
  }

  lemma ServicesAreKept(services: seq<Service>)
    requires forall s :: s in services ==> ServiceOk(s)
    ensures ReorderedAlike(services, Sort(Map(services, NormalService), ServiceBefore), ServiceKept)
  {
    SortReorders(Map(services, NormalService), ServiceBefore);
    forall s | s in services ensures ServiceKept(s, NormalService(s)) { ServiceIsKept(s); }
    MapThenReordered(services, NormalService, Sort(Map(services, NormalService), ServiceBefore), ServiceKept);
  }

  lemma SitesAreKept(sites: seq<Site>)
    ensures ReorderedAlike(sites, Sort(Map(sites, NormalSite), SiteBefore), SiteKept)
  {
    SortReorders(Map(sites, NormalSite), SiteBefore);
    MapThenReordered(sites, NormalSite, Sort(Map(sites, NormalSite), SiteBefore), SiteKept);
  }

  lemma EdgeIsKept(m: Manifest)
    requires Accepted(m)
    ensures EdgeKept(m.edge, m.services, NormalForm(m).edge)
  {
    SortReorders(Listed(m.edge.privateListeners), ListenerBefore);
    ReorderedReflexive<PrivateListener>([]);
    SitesAreKept(Listed(m.edge.existingSites));
    var normal := Map(m.services, NormalService);
    assert m.edge.compatibilityListen.Some? && m.edge.compatibilityService.None? ==> normal[0].id == m.services[0].id;
    SortPermutes(Listed(m.edge.privateListeners), ListenerBefore);
  }

  /** For every accepted manifest, the result has the input's name, and its services, its
      edge and its transport, each with its own fields, up to order, case and defaults. */
  lemma NormalizeKeeps(m: Manifest)
    requires Normalize(m).Some?
    ensures var n := Normalize(m).value;
            && n.name == m.name && n.apiVersion == "lazyedge.lazying.art/v1alpha1" && n.kind == "EdgeProject"
            && ReorderedAlike(m.services, n.services, ServiceKept)
            && EdgeKept(m.edge, m.services, n.edge)
            && TransportKept(m.transport, n.transport)
  {
    ServicesAreKept(m.services);
    EdgeIsKept(m);
  }

  // ----- when two inputs mean the same

  /** Equal up to the order of domains, routes and methods, the case of domains, spelled-out
      defaults, a public exposure said or not, and cookie forwarding off said or not. */
  ghost predicate ServiceSame(s: Service, t: Service) {
    && s.id == t.id && s.profile == t.profile && s.tokenSet == t.tokenSet
    && s.upstream == t.upstream && s.listen == t.listen && s.target == t.target && s.healthPath == t.healthPath
    && (s.exposure == Some("private") <==> t.exposure == Some("private"))
    && Reordered(Lowered(s.domains), Lowered(t.domains))
    && ReorderedAlike(s.routes, t.routes, RouteAlike)
    && Default(s.maxBodyBytes, 1_048_576) == Default(t.maxBodyBytes, 1_048_576)
    && Default(s.maxConcurrentRequests, 4) == Default(t.maxConcurrentRequests, 4)
    && Default(s.idleTimeoutSeconds, 900) == Default(t.idleTimeoutSeconds, 900)
    && (s.forwardCookies == Some(true) <==> t.forwardCookies == Some(true))
  }

  predicate SiteSame(s: Site, t: Site) {
    && Lower(s.host) == Lower(t.host) && s.secure == t.secure && s.upstream == t.upstream
    && s.tlsServerName.Some? == t.tlsServerName.Some?
    && (s.tlsServerName.Some? && t.tlsServerName.Some? ==> Lower(s.tlsServerName.value) == Lower(t.tlsServerName.value))
  }

  /** The service that a compatibility listener serves. */
  function Served(e: Edge, services: seq<Service>): Option<string> {
    if e.compatibilityListen == None then None
    else if e.compatibilityService.Some? || services == [] then e.compatibilityService
    else Some(services[0].id)
  }

  ghost predicate EdgeSame(m: Manifest, k: Manifest) {
    && m.edge.gatewayListen == k.edge.gatewayListen && m.edge.compatibilityListen == k.edge.compatibilityListen
    && Default(m.edge.httpPort, 10_080) == Default(k.edge.httpPort, 10_080)
    && Default(m.edge.httpsPort, 10_443) == Default(k.edge.httpsPort, 10_443)
    && Served(m.edge, m.services) == Served(k.edge, k.services)
    && Reordered(Listed(m.edge.privateListeners), Listed(k.edge.privateListeners))
    && (m.edge.existingSites == None <==> k.edge.existingSites == None)
    && ReorderedAlike(Listed(m.edge.existingSites), Listed(k.edge.existingSites), SiteSame)
  }

  predicate TransportSame(t: Transport, u: Transport) {
    && u == t.(sshHost := u.sshHost)
    && t.sshHost.Some? && u.sshHost.Some? && Lower(t.sshHost.value) == Lower(u.sshHost.value)
  }

  ghost predicate SameMeaning(m: Manifest, k: Manifest) {
    && m.name == k.name
    && ReorderedAlike(m.services, k.services, ServiceSame)
    && EdgeSame(m, k)
    && TransportSame(m.transport, k.transport)
  }

  // ----- the same result comes from inputs that mean the same

  /** Two lists with a common result are alike in whatever two elements with a common
      result have in common. */
  lemma CommonResult<T(!new)>(a: seq<T>, b: seq<T>, r: seq<T>, kept: (T, T) -> bool, same: (T, T) -> bool)
    requires ReorderedAlike(a, r, kept) && ReorderedAlike(b, r, kept)
    requires forall x, y, z :: kept(x, z) && kept(y, z) ==> same(x, y)
    ensures ReorderedAlike(a, b, same)
  {
    var p, q :| AlongAlike(a, r, p, q, kept);
    var p', q' :| AlongAlike(b, r, p', q', kept);
    var n := |a|;
    var there := seq(n, i requires 0 <= i < n => q'[p[i]]);
    var back := seq(n, j requires 0 <= j < n => q[p'[j]]);
    forall i | 0 <= i < n ensures same(a[i], b[there[i]]) {
      assert kept(a[i], r[p[i]]);
      assert kept(b[q'[p[i]]], r[p'[q'[p[i]]]]);
    }
    assert AlongAlike(a, b, there, back, same);
  }

  lemma CommonRoute(r: Route, q: Route, result: Route)
    requires RouteKept(r, result) && RouteKept(q, result)
    ensures RouteAlike(r, q)
  {
    ReorderedSymmetric(q.methods, result.methods);
    ReorderedTransitive(r.methods, result.methods, q.methods);
  }

  lemma CommonService(s: Service, t: Service, result: Service)
    requires ServiceKept(s, result) && ServiceKept(t, result)
    ensures ServiceSame(s, t)
  {
    ReorderedSymmetric(Lowered(t.domains), result.domains);
    ReorderedTransitive(Lowered(s.domains), result.domains, Lowered(t.domains));
    forall r, q, x | RouteKept(r, x) && RouteKept(q, x) ensures RouteAlike(r, q) { CommonRoute(r, q, x); }
    CommonResult(s.routes, t.routes, result.routes, RouteKept, RouteAlike);
  }

  lemma CommonEdge(m: Manifest, k: Manifest, result: Edge)
    requires EdgeKept(m.edge, m.services, result) && EdgeKept(k.edge, k.services, result)
    ensures EdgeSame(m, k)
  {
    ReorderedSymmetric(Listed(k.edge.privateListeners), Listed(result.privateListeners));
    ReorderedTransitive(Listed(m.edge.privateListeners), Listed(result.privateListeners), Listed(k.edge.privateListeners));
    CommonResult(Listed(m.edge.existingSites), Listed(k.edge.existingSites), Listed(result.existingSites), SiteKept, SiteSame);
  }

  lemma SameResultMeansSame(m: Manifest, k: Manifest)
    requires Normalize(m).Some? && Normalize(k) == Normalize(m)
    ensures SameMeaning(m, k)
  {
    var n := Normalize(m).value;
    NormalizeKeeps(m);
    NormalizeKeeps(k);
    forall s, t, x | ServiceKept(s, x) && ServiceKept(t, x) ensures ServiceSame(s, t) { CommonService(s, t, x); }
    CommonResult(m.services, k.services, n.services, ServiceKept, ServiceSame);
    CommonEdge(m, k, n.edge);
    assert TransportSame(m.transport, k.transport);
  }

  // ----- inputs that mean the same have the same result

  lemma SameDomains(s: Service, t: Service)
    requires DomainsOk(s) && Reordered(Lowered(s.domains), Lowered(t.domains))
    ensures Sort(Map(t.domains, Lower), Before) == Sort(Map(s.domains, Lower), Before)
  {
    var a, b := Lowered(s.domains), Lowered(t.domains);
    PairwiseIsOrderFree(a, b, Differ);
    TextsSeparated(a);
    TextsSeparated(b);
    TextOrder();
    SortIsOrderFree(a, b, Before);
  }

  lemma SameServiceSameForm(s: Service, t: Service)
    requires ServiceOk(s) && ServiceSame(s, t)
    ensures NormalService(t) == NormalService(s)
  {
    SameDomains(s, t);
    RoutesAreOrderFree(s, t);
    assert NormalService(t).maxBodyBytes == NormalService(s).maxBodyBytes;
  }

  lemma SameServicesSameForm(m: Manifest, k: Manifest)
    requires Accepted(m) && Accepted(k) && ReorderedAlike(m.services, k.services, ServiceSame)
    ensures NormalForm(k).services == NormalForm(m).services
  {
    var a, b := Map(m.services, NormalService), Map(k.services, NormalService);
    forall s, t | s in m.services && ServiceSame(s, t) ensures NormalService(s) == NormalService(t) {
      SameServiceSameForm(s, t);
    }
    MapReorders(m.services, k.services, ServiceSame, NormalService);
    ServicesSeparated(a);
    ServicesSeparated(b);
    NameOrders();
    SortIsOrderFree(a, b, ServiceBefore);
  }

  lemma SameSites(a: seq<Site>, b: seq<Site>)
    requires SitesOk(a) && SitesOk(b) && ReorderedAlike(a, b, SiteSame)
    ensures Sort(Map(b, NormalSite), SiteBefore) == Sort(Map(a, NormalSite), SiteBefore)
  {
    forall x, y | x in a && SiteSame(x, y) ensures NormalSite(x) == NormalSite(y) { }
    MapReorders(a, b, SiteSame, NormalSite);
    SitesSeparated(Map(a, NormalSite));
    SitesSeparated(Map(b, NormalSite));
    NameOrders();
    SortIsOrderFree(Map(a, NormalSite), Map(b, NormalSite), SiteBefore);
  }

  lemma SameListeners(a: seq<PrivateListener>, b: seq<PrivateListener>)
    requires ListenersOk(a) && Reordered(a, b)
    ensures Sort(b, ListenerBefore) == Sort(a, ListenerBefore) && (a == [] <==> b == [])
  {
    ListenersAreOrderFree(a, b);
    ReorderedHasMembers(a, b);
  }

  lemma SameEdgeSameForm(m: Manifest, k: Manifest)
    requires Accepted(m) && Accepted(k) && EdgeSame(m, k)
    ensures NormalForm(k).edge == NormalForm(m).edge
  {
    SameListeners(Listed(m.edge.privateListeners), Listed(k.edge.privateListeners));
    SameSites(Listed(m.edge.existingSites), Listed(k.edge.existingSites));
    EdgeIsKept(m);
    EdgeIsKept(k);
    assert NormalEdge(k.edge).(compatibilityService := None) == NormalEdge(m.edge).(compatibilityService := None);
  }

  /** Two accepted manifests have the same normal form if and only if they mean the same. */
  lemma NormalFormDecidesMeaning(m: Manifest, k: Manifest)
    requires Normalize(m).Some? && Normalize(k).Some?
    ensures Normalize(m) == Normalize(k) <==> SameMeaning(m, k)
  {
    if Normalize(m) == Normalize(k) { SameResultMeansSame(m, k); }
    if SameMeaning(m, k) {
      SameServicesSameForm(m, k);
      SameEdgeSameForm(m, k);
      assert NormalTransport(m.transport) == NormalTransport(k.transport);
    }
  }

  /** And so with their digests. */
  lemma DigestDecidesMeaning(m: Manifest, k: Manifest)
    requires Normalize(m).Some? && Normalize(k).Some?
    ensures ManifestDigest.Digest(m) == ManifestDigest.Digest(k) <==> SameMeaning(m, k)
  {
    ManifestDigest.DigestDecidesNormalForm(m, k);
    NormalFormDecidesMeaning(m, k);
  }
}

/** What the compiled guards guarantee for every normalised manifest. */
module PolicyGuards {
  import opened Results
  import opened Texts
  import opened Sorting
  import opened Reordering
  import opened RequestPath
  import opened RequestPathSafety
  import opened ManifestScalars
  import opened ManifestParts
  import opened Manifests
  import opened ClaimKeys
  import opened ManifestNormalizer
  import opened HttpPolicy

  // ----- the map is the linear scan

  lemma KeyIsOffered(n: Manifest, host: string, verb: string, path: string, s: Service) returns (r: Route)
    requires s in n.services && !IsPrivate(s) && TidyService(s) && NUL !in host && NUL !in verb
    requires ClaimKey(host, verb, path) in ServiceKeys(s)
    ensures Offers(n, s, r, host, verb, path)
  {
    var d, q, verb' :| d in s.domains && q in s.routes && verb' in q.methods
                       && ClaimKey(host, verb, path) == ClaimKey(d, verb', q.path);
    ClaimKeyIsInjective(host, verb, path, d, verb', q.path);
    r := q;
  }

  lemma OfferedIsAllowed(n: Manifest, p: EdgePolicy, s: Service, r: Route, host: string, verb: string, path: string)
    requires Files(p.claims, n.services) && Offers(n, s, r, host, verb, path)
    ensures Decide(p, host, verb, path) == Allowed("exact-claim", s, Some(r), s.upstream)
  {
    assert ClaimKey(host, verb, r.path) in p.claims;
  }

  lemma AllowedIsOffered(n: Manifest, p: EdgePolicy, host: string, verb: string, path: string)
    returns (s: Service, r: Route)
    requires Files(p.claims, n.services) && (forall t :: t in n.services ==> TidyService(t))
    requires NUL !in host && NUL !in verb && Decide(p, host, verb, path).Allowed?
    ensures Offers(n, s, r, host, verb, path)
  {
    s :| s in n.services && !IsPrivate(s) && ClaimKey(host, verb, path) in ServiceKeys(s);
    r := KeyIsOffered(n, host, verb, path, s);
  }

  /** The lookup allows a request exactly when one public (service, domain, route,
      method) offers it, and returns that service and route; there is no second one. */
  lemma LookupIsScan(n: Manifest, p: EdgePolicy, host: string, verb: string, path: string)
    requires IsNormal(n) && Compiled(p, n) && NUL !in host && NUL !in verb
    ensures Decide(p, host, verb, path).Allowed? <==> exists s, r :: Offers(n, s, r, host, verb, path)
    ensures forall s, r :: Offers(n, s, r, host, verb, path) ==>
              Decide(p, host, verb, path) == Allowed("exact-claim", s, Some(r), s.upstream)
    ensures forall s, r, s', r' :: Offers(n, s, r, host, verb, path) && Offers(n, s', r', host, verb, path) ==>
              s == s' && r == r'
  {
    NormalServices(n);
    if Decide(p, host, verb, path).Allowed? { var s, r := AllowedIsOffered(n, p, host, verb, path); }
    forall s, r | Offers(n, s, r, host, verb, path)
      ensures Decide(p, host, verb, path) == Allowed("exact-claim", s, Some(r), s.upstream)
    {
      OfferedIsAllowed(n, p, s, r, host, verb, path);
    }
  }

  /** A denial tells unknown hosts from unknown routes. */
  lemma DenialReason(n: Manifest, p: EdgePolicy, host: string, verb: string, path: string)
    requires Compiled(p, n) && Decide(p, host, verb, path).Denied?
    ensures Decide(p, host, verb, path).reason ==
              if exists s :: s in n.services && !IsPrivate(s) && host in s.domains
              then "route-not-allowed" else "host-not-allowed"
  {
  }

  // ----- requests

  lemma HostHasNoNul(value: string)
    requires RequestHost(value).Success?
    ensures NUL !in RequestHost(value).value
  {
    var d := value[..ColonAt(value)];
    LowerIsIdempotent(d);
    DomainsHaveNoNul(Lower(d));
  }

  /** An allowed request names a normalised domain and, verbatim, a configured path. */
  lemma AllowedRequest(n: Manifest, p: EdgePolicy, host: Option<string>, url: string, verb: string) returns (r: Route)
    requires IsNormal(n) && Compiled(p, n) && DecideRequest(p, host, url, verb).Allowed?
    ensures host.Some? && RequestHost(host.value).Success? && ParseTarget(url).Some? && verb in METHODS
    ensures Offers(n, DecideRequest(p, host, url, verb).service, r, RequestHost(host.value).value, verb, ParseTarget(url).value.path)
    ensures DecideRequest(p, host, url, verb) ==
              Allowed("exact-claim", DecideRequest(p, host, url, verb).service, Some(r), DecideRequest(p, host, url, verb).service.upstream)
  {
    var h, path := RequestHost(host.value).value, ParseTarget(url).value.path;
    HostHasNoNul(host.value);
    MethodsHaveNoNul(verb);
    LookupIsScan(n, p, h, verb, path);
    var s, q :| Offers(n, s, q, h, verb, path);
    r := q;
  }

  /** Whatever the edge lets through has a path that decoding and dot-segment removal
      leave alone, so guards and upstreams that decode see the same path. */
  lemma AllowedPathIsFixed(n: Manifest, p: EdgePolicy, host: Option<string>, url: string, verb: string)
    requires IsNormal(n) && Compiled(p, n) && DecideRequest(p, host, url, verb).Allowed?
    ensures var path := ParseTarget(url).value.path;
            && IsRoutePath(path) && Decode(path) == Some(path) && RemoveDots(path) == path
            && ParseTarget(path) == Some(Target(path, "", path))
  {
    var r := AllowedRequest(n, p, host, url, verb);
    NormalServices(n);
    assert RouteOk(r, DecideRequest(p, host, url, verb).service.profile);
    RoutePathIsFixed(r.path);
  }

  // ----- two guards

  /** The manifest's uniqueness checks: services differ in upstream and listener. */
  lemma AddressesIdentify(n: Manifest, s: Service, t: Service)
    requires IsNormal(n) && s in n.services && t in n.services
    ensures s.upstream == t.upstream || s.listen == t.listen ==> s == t
  {
    NormalServices(n);
    if s != t { PairwiseAt(n.services, Compatible, s, t); }
  }

  lemma ForwardIsListed(n: Manifest, s: Service)
    requires s in n.services
    ensures ForwardOf(s) in Forwards(n)
  {
    var i :| 0 <= i < |n.services| && n.services[i] == s;
    assert Forwards(n)[i] == ForwardOf(s);
  }

  /** The forward table leads from a service's edge upstream to its worker, and nowhere else. */
  lemma ForwardIsExact(n: Manifest, s: Service)
    requires IsNormal(n) && s in n.services
    ensures ForwardOf(s) in Forwards(n)
    ensures forall f :: f in Forwards(n) && f.remote == s.upstream ==> f == ForwardOf(s)
    ensures forall t :: t in n.services && t.listen == ForwardOf(s).local ==> t == s
  {
    ForwardIsListed(n, s);
    forall f | f in Forwards(n) && f.remote == s.upstream ensures f == ForwardOf(s) {
      var j :| 0 <= j < |Forwards(n)| && Forwards(n)[j] == f;
      AddressesIdentify(n, s, n.services[j]);
    }
    forall t | t in n.services && t.listen == ForwardOf(s).local ensures t == s { AddressesIdentify(n, s, t); }
  }

  /** A request the edge allows reaches, through the forward of its service, that
      service's worker guard alone, which allows it as an exact claim. */
  lemma TwoGuardsAgree(n: Manifest, p: EdgePolicy, host: Option<string>, url: string, verb: string, f: Forward, t: Service)
    requires IsNormal(n) && Compiled(p, n) && DecideRequest(p, host, url, verb).Allowed?
    requires f in Forwards(n) && f.remote == DecideRequest(p, host, url, verb).target
    requires t in n.services && t.listen == f.local
    ensures t == DecideRequest(p, host, url, verb).service
    ensures WorkerDecideRequest(WorkerPolicy(t, AllPairKeys(t.routes)), url, verb) == Allowed("exact-claim", t, None, t.target)
  {
    var r := AllowedRequest(n, p, host, url, verb);
    ForwardIsExact(n, DecideRequest(p, host, url, verb).service);
    assert r in t.routes && verb in r.methods;
    assert PairKey(verb, r.path) in AllPairKeys(t.routes);
  }

  /** Such a forward and worker exist. */
  lemma TwoGuardsMeet(n: Manifest, p: EdgePolicy, host: Option<string>, url: string, verb: string)
    requires IsNormal(n) && Compiled(p, n) && DecideRequest(p, host, url, verb).Allowed?
    ensures exists f, t :: f in Forwards(n) && f.remote == DecideRequest(p, host, url, verb).target
                           && t in n.services && t.listen == f.local
  {
    var r := AllowedRequest(n, p, host, url, verb);
    var s := DecideRequest(p, host, url, verb).service;
    ForwardIsExact(n, s);
    assert s in n.services && s.listen == ForwardOf(s).local;
  }

  /** The private health path of a service is never reached through the edge, and its
      worker guard tells the two kinds of request apart. */
  lemma HealthPathIsPrivate(n: Manifest, p: EdgePolicy, s: Service, host: Option<string>, url: string, verb: string)
    requires IsNormal(n) && Compiled(p, n) && s in n.services && s.healthPath.Some?
    requires ParseTarget(url).Some? && ParseTarget(url).value.path == s.healthPath.value
    ensures DecideRequest(p, host, url, verb).Allowed? ==> DecideRequest(p, host, url, verb).service != s
    ensures verb in METHODS ==>
              WorkerDecideRequest(WorkerPolicy(s, AllPairKeys(s.routes)), url, verb) ==
                if verb == "GET" then Allowed("private-health", s, None, s.target) else Denied("route-not-allowed")
  {
    NormalServices(n);
    NormalRoutesAvoidHealth(s);
    if DecideRequest(p, host, url, verb).Allowed? { var r := AllowedRequest(n, p, host, url, verb); }
    if verb in METHODS && PairKey(verb, s.healthPath.value) in AllPairKeys(s.routes) {
      var r, verb' :| r in s.routes && verb' in r.methods && PairKey(verb, s.healthPath.value) == PairKey(verb', r.path);
      MethodsHaveNoNul(verb);
      PairKeyIsInjective(verb, s.healthPath.value, verb', r.path);
    }
  }

  lemma NormalRoutesAvoidHealth(s: Service)
    requires ServiceOk(s) && NormalService(s) == s
    ensures forall r :: r in s.routes ==> s.healthPath != Some(r.path)
  {
    var routes := Map(s.routes, SortedRoute);
    forall r | r in s.routes ensures s.healthPath != Some(r.path) {
      var i :| 0 <= i < |s.routes| && s.routes[i] == r;
      assert routes[i] in routes;
    }
  }
}

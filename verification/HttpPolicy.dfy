/** The compiled edge and worker guards (src/http-policy.js) and the forward table
    between them (src/openssh.js). */
module HttpPolicy {
  import opened Results
  import opened Texts
  import opened Numbers
  import opened Sorting
  import opened Reordering
  import opened RequestPath
  import opened ManifestScalars
  import opened ManifestParts
  import opened Manifests
  import opened ManifestOrders
  import opened ManifestCanonical
  import opened ClaimKeys
  import opened ManifestNormalizer

  datatype Decision =
    | Denied(reason: string)
    | Allowed(reason: string, service: Service, route: Option<Route>, target: Address)

  datatype Claim = Claim(service: Service, route: Route)

  // ----- the edge guard

  datatype EdgePolicy = EdgePolicy(claims: map<string, Claim>, hosts: set<string>)

  function Decide(p: EdgePolicy, host: string, verb: string, path: string): Decision {
    var key := ClaimKey(host, verb, path);
    if key in p.claims then
      var claim := p.claims[key];
      Allowed("exact-claim", claim.service, Some(claim.route), claim.service.upstream)
    else Denied(if host in p.hosts then "route-not-allowed" else "host-not-allowed")
  }

  /** A normalised manifest. */
  predicate IsNormal(n: Manifest) { Normalize(n) == Some(n) }

  /** The linear scan that the map speeds up. */
  ghost predicate Offers(n: Manifest, s: Service, r: Route, host: string, verb: string, path: string) {
    && s in n.services && !IsPrivate(s) && host in s.domains
    && r in s.routes && verb in r.methods && r.path == path
  }

  /** A key is filed exactly when a public claim has it, under that claim's service and route. */
  ghost predicate Files(claims: map<string, Claim>, services: seq<Service>) {
    && (forall key :: key in claims ==>
          exists s :: s in services && !IsPrivate(s) && key in ServiceKeys(s))
    && (forall s, d, r, verb :: s in services && !IsPrivate(s) && d in s.domains && r in s.routes && verb in r.methods ==>
          ClaimKey(d, verb, r.path) in claims && claims[ClaimKey(d, verb, r.path)] == Claim(s, r))
  }

  ghost predicate Lists(hosts: set<string>, services: seq<Service>) {
    forall host :: host in hosts <==> exists s :: s in services && !IsPrivate(s) && host in s.domains
  }

  ghost predicate Compiled(p: EdgePolicy, n: Manifest) { Files(p.claims, n.services) && Lists(p.hosts, n.services) }

  // The nested loops, inside out: each adds the claims of its part.

  ghost predicate Adds(claims: map<string, Claim>, claims': map<string, Claim>, keys: set<string>) {
    && claims'.Keys == claims.Keys + keys
    && (forall key :: key in claims && key !in keys ==> claims'[key] == claims[key])
  }

  lemma AddsMore(a: map<string, Claim>, b: map<string, Claim>, c: map<string, Claim>, x: set<string>, y: set<string>)
    requires Adds(a, b, x) && Adds(b, c, y)
    ensures Adds(a, c, x + y)
  {
  }

  method AddMethods(claims: map<string, Claim>, s: Service, host: string, r: Route) returns (claims': map<string, Claim>)
    ensures Adds(claims, claims', MethodKeys(host, r))
    ensures forall key :: key in MethodKeys(host, r) ==> claims'[key] == Claim(s, r)
  {
    claims' := claims;
    for k := 0 to |r.methods|
      invariant claims'.Keys == claims.Keys + set verb | verb in r.methods[..k] :: ClaimKey(host, verb, r.path)
      invariant forall key :: key in claims && key !in MethodKeys(host, r) ==> claims'[key] == claims[key]
      invariant forall verb :: verb in r.methods[..k] ==> claims'[ClaimKey(host, verb, r.path)] == Claim(s, r)
    {
      assert r.methods[..k + 1] == r.methods[..k] + [r.methods[k]];
      assert r.methods[k] in r.methods && ClaimKey(host, r.methods[k], r.path) in MethodKeys(host, r);
      claims' := claims'[ClaimKey(host, r.methods[k], r.path) := Claim(s, r)];
    }
    assert r.methods[..|r.methods|] == r.methods;
  }

  ghost predicate Filed(claims: map<string, Claim>, s: Service, host: string, routes: seq<Route>) {
    forall r, verb :: r in routes && verb in r.methods ==>
      ClaimKey(host, verb, r.path) in claims && claims[ClaimKey(host, verb, r.path)] == Claim(s, r)
  }

  lemma MethodsFiled(claims: map<string, Claim>, claims': map<string, Claim>, s: Service, host: string, j: nat)
    requires TidyRoutes(s.routes) && NUL !in host && j < |s.routes|
    requires Filed(claims, s, host, s.routes[..j]) && Adds(claims, claims', MethodKeys(host, s.routes[j]))
    requires forall key :: key in MethodKeys(host, s.routes[j]) ==> claims'[key] == Claim(s, s.routes[j])
    ensures Filed(claims', s, host, s.routes[..j + 1])
  {
    var r' := s.routes[j];
    assert s.routes[..j + 1] == s.routes[..j] + [r'];
    forall r, verb | r in s.routes[..j + 1] && verb in r.methods
      ensures ClaimKey(host, verb, r.path) in claims' && claims'[ClaimKey(host, verb, r.path)] == Claim(s, r)
    {
      if r in s.routes[..j] {
        ManifestLoops.OneMoreRoute(host, s.routes, j);
        assert ClaimKey(host, verb, r.path) in RouteKeys(host, s.routes[..j]);
      }
    }
  }

  method AddRoutes(claims: map<string, Claim>, s: Service, host: string) returns (claims': map<string, Claim>)
    requires TidyRoutes(s.routes) && NUL !in host
    ensures Adds(claims, claims', RouteKeys(host, s.routes))
    ensures Filed(claims', s, host, s.routes)
  {
    claims' := claims;
    for j := 0 to |s.routes|
      invariant Adds(claims, claims', RouteKeys(host, s.routes[..j]))
      invariant Filed(claims', s, host, s.routes[..j])
    {
      ghost var before := claims';
      claims' := AddMethods(claims', s, host, s.routes[j]);
      ManifestLoops.OneMoreRoute(host, s.routes, j);
      MethodsFiled(before, claims', s, host, j);
    }
    assert s.routes[..|s.routes|] == s.routes;
  }

  ghost predicate ServiceFiled(claims: map<string, Claim>, s: Service, domains: seq<string>) {
    forall d :: d in domains ==> Filed(claims, s, d, s.routes)
  }

  lemma RoutesFiled(claims: map<string, Claim>, claims': map<string, Claim>, s: Service, i: nat)
    requires TidyService(s) && i < |s.domains| && ServiceFiled(claims, s, s.domains[..i])
    requires Adds(claims, claims', RouteKeys(s.domains[i], s.routes)) && Filed(claims', s, s.domains[i], s.routes)
    ensures ServiceFiled(claims', s, s.domains[..i + 1])
  {
    assert s.domains[..i + 1] == s.domains[..i] + [s.domains[i]];
    ManifestLoops.OneMoreDomain(s, i);
    forall d | d in s.domains[..i] ensures Filed(claims', s, d, s.routes) {
      forall r, verb | r in s.routes && verb in r.methods
        ensures ClaimKey(d, verb, r.path) in claims' && claims'[ClaimKey(d, verb, r.path)] == Claim(s, r)
      {
        assert ClaimKey(d, verb, r.path) in DomainKeys(s.domains[..i], s.routes);
      }
    }
  }

  method AddDomains(claims: map<string, Claim>, hosts: set<string>, s: Service)
    returns (claims': map<string, Claim>, hosts': set<string>)
    requires TidyService(s)
    ensures Adds(claims, claims', ServiceKeys(s)) && ServiceFiled(claims', s, s.domains)
    ensures hosts' == hosts + Hosts(s.domains)
  {
    claims', hosts' := claims, hosts;
    NothingAdded(claims, s);
    for i := 0 to |s.domains|
      invariant AddedSoFar(claims, claims', s, i)
      invariant hosts' == hosts + Hosts(s.domains[..i])
    {
      OneMoreHost(s.domains, i);
      hosts' := hosts' + {s.domains[i]};
      claims' := AddDomain(claims, claims', s, i);
    }
    assert s.domains[..|s.domains|] == s.domains;
  }

  ghost predicate AddedSoFar(start: map<string, Claim>, claims: map<string, Claim>, s: Service, i: nat)
    requires i <= |s.domains|
  {
    Adds(start, claims, DomainKeys(s.domains[..i], s.routes)) && ServiceFiled(claims, s, s.domains[..i])
  }

  lemma NothingAdded(claims: map<string, Claim>, s: Service)
    ensures AddedSoFar(claims, claims, s, 0)
  {
  }

  /** One turn of the loop over the domains of a service. */
  method AddDomain(ghost start: map<string, Claim>, claims: map<string, Claim>, s: Service, i: nat)
    returns (claims': map<string, Claim>)
    requires TidyService(s) && i < |s.domains| && AddedSoFar(start, claims, s, i)
    ensures AddedSoFar(start, claims', s, i + 1)
  {
    assert s.domains[i] in s.domains;
    claims' := AddRoutes(claims, s, s.domains[i]);
    RoutesFiled(claims, claims', s, i);
    ManifestLoops.OneMoreDomain(s, i);
    AddsMore(start, claims, claims', DomainKeys(s.domains[..i], s.routes), RouteKeys(s.domains[i], s.routes));
  }

  ghost function Hosts(domains: seq<string>): set<string> { set d | d in domains }

  lemma OneMoreHost(domains: seq<string>, i: nat)
    requires i < |domains|
    ensures Hosts(domains[..i + 1]) == Hosts(domains[..i]) + {domains[i]}
  {
    assert domains[..i + 1] == domains[..i] + [domains[i]];
  }

  // ----- compileHttpPolicy

  /** The services of a normal manifest are normal, tidy and pairwise compatible. */
  lemma NormalServices(n: Manifest)
    requires IsNormal(n)
    ensures forall s :: s in n.services ==> ServiceOk(s) && NormalService(s) == s && TidyService(s)
    ensures Pairwise(n.services, Compatible)
  {
    NormalServicesAreOk(n);
    forall s | s in n.services ensures NormalService(s) == s && TidyService(s) {
      MappedToItself(n.services, s);
      NormalServiceIsTidy(s);
    }
  }

  lemma NormalServicesAreOk(n: Manifest)
    requires IsNormal(n)
    ensures ServicesOk(n.services) && Map(n.services, NormalService) == n.services
    ensures (forall s :: s in n.services ==> ServiceOk(s)) && Pairwise(n.services, Compatible)
  {
    ServicesAreFixed(n.services);
  }

  lemma MappedToItself(services: seq<Service>, s: Service)
    requires s in services && Map(services, NormalService) == services
    ensures NormalService(s) == s
  {
    var i :| 0 <= i < |services| && services[i] == s;
    assert Map(services, NormalService)[i] == NormalService(s);
  }

  ghost predicate FilesKeys(claims: map<string, Claim>, services: seq<Service>) {
    forall key :: key in claims ==> exists s :: s in services && !IsPrivate(s) && key in ServiceKeys(s)
  }

  ghost predicate FilesClaims(claims: map<string, Claim>, services: seq<Service>) {
    forall s :: s in services && !IsPrivate(s) ==> ServiceFiled(claims, s, s.domains)
  }

  lemma KeysOfOneMore(claims: map<string, Claim>, claims': map<string, Claim>, services: seq<Service>, t: Service)
    requires FilesKeys(claims, services) && !IsPrivate(t) && Adds(claims, claims', ServiceKeys(t))
    ensures FilesKeys(claims', services + [t])
  {
    var done := services + [t];
    forall key | key in claims' ensures exists s :: s in done && !IsPrivate(s) && key in ServiceKeys(s) {
      if key in ServiceKeys(t) {
        assert t in done;
      } else {
        var s :| s in services && !IsPrivate(s) && key in ServiceKeys(s);
        assert s in done;
      }
    }
  }

  /** The claims of an earlier service are not overwritten. */
  lemma EarlierStaysFiled(claims: map<string, Claim>, claims': map<string, Claim>, s: Service, t: Service)
    requires TidyService(s) && TidyService(t) && !SharesClaim(s, t)
    requires ServiceFiled(claims, s, s.domains) && Adds(claims, claims', ServiceKeys(t))
    ensures ServiceFiled(claims', s, s.domains)
  {
    SharedServiceKey(s, t);
    forall d | d in s.domains ensures Filed(claims', s, d, s.routes) {
      assert Filed(claims, s, d, s.routes);
      forall r, verb | r in s.routes && verb in r.methods
        ensures ClaimKey(d, verb, r.path) in claims' && claims'[ClaimKey(d, verb, r.path)] == Claim(s, r)
      {
        assert ClaimKey(d, verb, r.path) in ServiceKeys(s);
      }
    }
  }

  lemma ClaimsOfOneMore(claims: map<string, Claim>, claims': map<string, Claim>, services: seq<Service>, i: nat)
    requires i < |services| && Pairwise(services, Compatible) && forall s :: s in services ==> TidyService(s)
    requires FilesClaims(claims, services[..i])
    requires Adds(claims, claims', ServiceKeys(services[i])) && ServiceFiled(claims', services[i], services[i].domains)
    ensures FilesClaims(claims', services[..i] + [services[i]])
  {
    forall s | s in services[..i] && !IsPrivate(s) ensures ServiceFiled(claims', s, s.domains) {
      var k :| 0 <= k < i && services[k] == s;
      assert Compatible(services[k], services[i]) && s in services && services[i] in services;
      EarlierStaysFiled(claims, claims', s, services[i]);
    }
  }

  lemma HostsOfOneMore(hosts: set<string>, services: seq<Service>, t: Service)
    requires Lists(hosts, services)
    ensures !IsPrivate(t) ==> Lists(hosts + Hosts(t.domains), services + [t])
    ensures IsPrivate(t) ==> Lists(hosts, services + [t])
  {
    var done := services + [t];
    assert t in done && forall s :: s in done <==> s in services || s == t;
  }

  lemma FilesSplit(claims: map<string, Claim>, services: seq<Service>)
    requires FilesKeys(claims, services) && FilesClaims(claims, services)
    ensures Files(claims, services)
  {
    forall s, d, r, verb | s in services && !IsPrivate(s) && d in s.domains && r in s.routes && verb in r.methods
      ensures ClaimKey(d, verb, r.path) in claims && claims[ClaimKey(d, verb, r.path)] == Claim(s, r)
    {
      assert Filed(claims, s, d, s.routes);
    }
  }

  lemma SkippedPrivate(claims: map<string, Claim>, services: seq<Service>, t: Service)
    requires FilesKeys(claims, services) && FilesClaims(claims, services) && IsPrivate(t)
    ensures FilesKeys(claims, services + [t]) && FilesClaims(claims, services + [t])
  {
    assert forall s :: s in services ==> s in services + [t];
  }

  /** compileHttpPolicy normalises its input first, and fails with it. */
  method CompileHttpPolicy(m: Manifest) returns (p: Option<EdgePolicy>)
    ensures p.Some? <==> Normalize(m).Some?
    ensures p.Some? ==> IsNormal(Normalize(m).value) && Compiled(p.value, Normalize(m).value)
  {
    var normal := NormalizeManifest(m);
    if normal.None? { return None; }
    NormalizeIsIdempotent(m);
    NormalServices(normal.value);
    var policy := CompileServices(normal.value.services);
    return Some(policy);
  }

  method CompileServices(services: seq<Service>) returns (p: EdgePolicy)
    requires Pairwise(services, Compatible) && forall s :: s in services ==> TidyService(s)
    ensures Files(p.claims, services) && Lists(p.hosts, services)
  {
    var claims: map<string, Claim>, hosts: set<string> := map[], {};
    for i := 0 to |services|
      invariant FilesKeys(claims, services[..i]) && FilesClaims(claims, services[..i]) && Lists(hosts, services[..i])
    {
      var s := services[i];
      assert s in services && services[..i + 1] == services[..i] + [s];
      HostsOfOneMore(hosts, services[..i], s);
      if IsPrivate(s) {
        SkippedPrivate(claims, services[..i], s);
      } else {
        ghost var before := claims;
        claims, hosts := AddDomains(claims, hosts, s);
        KeysOfOneMore(before, claims, services[..i], s);
        ClaimsOfOneMore(before, claims, services, i);
      }
    }
    assert services[..|services|] == services;
    FilesSplit(claims, services);
    return EdgePolicy(claims, hosts);
  }

  // ----- the worker guard

  datatype WorkerPolicy = WorkerPolicy(service: Service, claims: set<string>)

  function WorkerDecide(p: WorkerPolicy, verb: string, path: string): Decision {
    if PairKey(verb, path) in p.claims then Allowed("exact-claim", p.service, None, p.service.target)
    else if p.service.healthPath.Some? && verb == "GET" && path == p.service.healthPath.value then
      Allowed("private-health", p.service, None, p.service.target)
    else Denied("route-not-allowed")
  }

  method CompileWorkerPolicy(s: Service) returns (p: WorkerPolicy)
    ensures p == WorkerPolicy(s, AllPairKeys(s.routes))
  {
    var claims: set<string> := {};
    for j := 0 to |s.routes|
      invariant claims == AllPairKeys(s.routes[..j])
    {
      var r := s.routes[j];
      assert s.routes[..j + 1] == s.routes[..j] + [r];
      for k := 0 to |r.methods|
        invariant claims == AllPairKeys(s.routes[..j]) + set verb | verb in r.methods[..k] :: PairKey(verb, r.path)
      {
        assert r.methods[..k + 1] == r.methods[..k] + [r.methods[k]];
        claims := claims + {PairKey(r.methods[k], r.path)};
      }
      assert r.methods[..|r.methods|] == r.methods;
    }
    assert s.routes[..|s.routes|] == s.routes;
    return WorkerPolicy(s, claims);
  }

  // ----- requests

  /** normalizeRequestHost: an optional port is dropped; the error is the deny reason. */
  function RequestHost(value: string): Result<string, string> {
    if || |value| > 512 || "[" <= value
       || exists i :: 0 <= i < |value| && (IsSpace(value[i]) || value[i] in {',', '@', '/', '\\', '%'})
    then Failure("invalid_host")
    else
      var k := ColonAt(value);
      if k < |value| && !IsPortText(value[k + 1..]) then Failure("invalid_host")
      else if DomainOk(value[..k]) then Success(Lower(value[..k]))
      else Failure("security_policy")
  }

  function ColonAt(s: string): (k: nat)
    ensures k <= |s| && (forall i :: 0 <= i < k ==> s[i] != ':') && (k < |s| ==> s[k] == ':')
  {
    if s == [] || s[0] == ':' then 0 else 1 + ColonAt(s[1..])
  }

  predicate IsPortText(s: string) {
    1 <= |s| <= 5 && IsDigits(s) && 1 <= DecimalValue(s) <= 65535
  }

  /** `decideRequest` of the edge; an absent or repeated Host header is `None`. */
  function DecideRequest(p: EdgePolicy, host: Option<string>, url: string, verb: string): Decision {
    if host.None? then Denied("invalid_host")
    else if RequestHost(host.value).Failure? then Denied(RequestHost(host.value).error)
    else if ParseTarget(url).None? then Denied("unsafe_path")
    else if verb !in METHODS then Denied("security_policy")
    else Decide(p, RequestHost(host.value).value, verb, ParseTarget(url).value.path)
  }

  /** `decideRequest` of a worker. */
  function WorkerDecideRequest(p: WorkerPolicy, url: string, verb: string): Decision {
    if ParseTarget(url).None? then Denied("unsafe_path")
    else if verb !in METHODS then Denied("security_policy")
    else WorkerDecide(p, verb, ParseTarget(url).value.path)
  }

  // ----- the forward table

  datatype Forward = Forward(service: string, remote: Address, local: Address)

  function ForwardOf(s: Service): Forward { Forward(s.id, s.upstream, s.listen) }

  /** openSshForwards, before its sort. */
  function Forwards(n: Manifest): seq<Forward> { Map(n.services, ForwardOf) }
}

/** The loops of `normalizeManifest` (src/config.js) that fill sets and maps of claims,
    proved against the specification in ManifestParts and Manifests. */
module ManifestLoops {
  import opened Results
  import opened Texts
  import opened Sorting
  import opened Reordering
  import opened ManifestScalars
  import opened ManifestParts
  import opened Manifests
  import opened ManifestOrders
  import opened ManifestCanonical
  import opened ClaimKeys

  // ----- uniqueness by sets

  lemma PrefixPairwise<T>(s: seq<T>, i: nat, ok: (T, T) -> bool)
    requires i < |s| && Pairwise(s[..i], ok)
    ensures Pairwise(s[..i + 1], ok) <==> forall k :: 0 <= k < i ==> ok(s[k], s[i])
  {
    var t := s[..i + 1];
    assert forall k :: 0 <= k < i ==> t[k] == s[k] && s[..i][k] == s[k];
    if Pairwise(t, ok) {
      forall k | 0 <= k < i ensures ok(s[k], s[i]) { assert ok(t[k], t[i]); }
    }
  }

  /** `new Set(values).size === values.length` */
  method AllDistinct<T(==)>(values: seq<T>) returns (ok: bool)
    ensures ok <==> Pairwise(values, Differ)
  {
    var seen: set<T> := {};
    for i := 0 to |values|
      invariant seen == set v | v in values[..i]
      invariant Pairwise(values[..i], Differ)
    {
      PrefixPairwise(values, i, Differ);
      if values[i] in seen {
        ghost var k :| 0 <= k < i && values[..i][k] == values[i];
        assert !Differ(values[k], values[i]);
        return false;
      }
      seen := seen + {values[i]};
      assert values[..i + 1] == values[..i] + [values[i]];
    }
    assert values[..|values|] == values;
    return true;
  }

  // ----- public claims

  method ClaimMethods(host: string, r: Route, claims: set<string>) returns (ok: bool, claims': set<string>)
    requires TidyRoute(r) && NUL !in host
    ensures ok <==> MethodKeys(host, r) !! claims
    ensures ok ==> claims' == claims + MethodKeys(host, r)
  {
    claims' := claims;
    for k := 0 to |r.methods|
      invariant claims' == claims + set verb | verb in r.methods[..k] :: ClaimKey(host, verb, r.path)
      invariant forall verb :: verb in r.methods[..k] ==> ClaimKey(host, verb, r.path) !in claims
    {
      var key := ClaimKey(host, r.methods[k], r.path);
      EarlierMethods(host, r, k);
      assert r.methods[..k + 1] == r.methods[..k] + [r.methods[k]];
      if key in claims' {
        assert key in MethodKeys(host, r) && key in claims;
        return false, claims';
      }
      claims' := claims' + {key};
    }
    assert r.methods[..|r.methods|] == r.methods;
    return true, claims';
  }

  lemma EarlierMethods(host: string, r: Route, k: nat)
    requires TidyRoute(r) && NUL !in host && k < |r.methods|
    ensures forall verb :: verb in r.methods[..k] ==> ClaimKey(host, verb, r.path) != ClaimKey(host, r.methods[k], r.path)
  {
    forall verb | verb in r.methods[..k] ensures ClaimKey(host, verb, r.path) != ClaimKey(host, r.methods[k], r.path) {
      var j :| 0 <= j < k && r.methods[j] == verb;
      assert Differ(r.methods[j], r.methods[k]);
      ClaimKeyIsInjective(host, verb, r.path, host, r.methods[k], r.path);
    }
  }

  method ClaimRoutes(host: string, routes: seq<Route>, claims: set<string>) returns (ok: bool, claims': set<string>)
    requires TidyRoutes(routes) && NUL !in host
    ensures ok <==> RouteKeys(host, routes) !! claims
    ensures ok ==> claims' == claims + RouteKeys(host, routes)
  {
    claims' := claims;
    for j := 0 to |routes|
      invariant claims' == claims + RouteKeys(host, routes[..j])
      invariant RouteKeys(host, routes[..j]) !! claims
    {
      assert routes[j] in routes;
      OneMoreRoute(host, routes, j);
      var fine;
      fine, claims' := ClaimMethods(host, routes[j], claims');
      if !fine { return false, claims'; }
    }
    assert routes[..|routes|] == routes;
    return true, claims';
  }

  lemma OneMoreRoute(host: string, routes: seq<Route>, j: nat)
    requires TidyRoutes(routes) && NUL !in host && j < |routes|
    ensures RouteKeys(host, routes[..j + 1]) == RouteKeys(host, routes[..j]) + MethodKeys(host, routes[j])
    ensures RouteKeys(host, routes[..j + 1]) <= RouteKeys(host, routes)
    ensures RouteKeys(host, routes[..j]) !! MethodKeys(host, routes[j])
  {
    assert routes[..j + 1] == routes[..j] + [routes[j]];
    forall key | key in RouteKeys(host, routes[..j]) ensures key !in MethodKeys(host, routes[j]) {
      var r, verb :| r in routes[..j] && verb in r.methods && key == ClaimKey(host, verb, r.path);
      var i :| 0 <= i < j && routes[i] == r;
      assert Unclaimed(routes[i], routes[j]) && routes[i] in routes && routes[j] in routes;
      SharedMethodKey(host, r, host, routes[j]);
      assert key in MethodKeys(host, r);
    }
  }

  method ClaimDomains(s: Service, claims: set<string>) returns (ok: bool, claims': set<string>)
    requires TidyService(s)
    ensures ok <==> ServiceKeys(s) !! claims
    ensures ok ==> claims' == claims + ServiceKeys(s)
  {
    claims' := claims;
    for i := 0 to |s.domains|
      invariant claims' == claims + DomainKeys(s.domains[..i], s.routes)
      invariant DomainKeys(s.domains[..i], s.routes) !! claims
    {
      assert s.domains[i] in s.domains;
      OneMoreDomain(s, i);
      var fine;
      fine, claims' := ClaimRoutes(s.domains[i], s.routes, claims');
      if !fine { return false, claims'; }
    }
    assert s.domains[..|s.domains|] == s.domains;
    return true, claims';
  }

  lemma OneMoreDomain(s: Service, i: nat)
    requires TidyService(s) && i < |s.domains|
    ensures DomainKeys(s.domains[..i + 1], s.routes) == DomainKeys(s.domains[..i], s.routes) + RouteKeys(s.domains[i], s.routes)
    ensures DomainKeys(s.domains[..i + 1], s.routes) <= ServiceKeys(s)
    ensures DomainKeys(s.domains[..i], s.routes) !! RouteKeys(s.domains[i], s.routes)
  {
    var host := s.domains[i];
    assert s.domains[..i + 1] == s.domains[..i] + [host];
    forall key | key in DomainKeys(s.domains[..i], s.routes) ensures key !in RouteKeys(host, s.routes) {
      var d, r, verb :| d in s.domains[..i] && r in s.routes && verb in r.methods && key == ClaimKey(d, verb, r.path);
      var k :| 0 <= k < i && s.domains[k] == d;
      assert Differ(s.domains[k], s.domains[i]) && host in s.domains && d in s.domains;
      forall q, verb' | q in s.routes && verb' in q.methods ensures key != ClaimKey(host, verb', q.path) {
        ClaimKeyIsInjective(d, verb, r.path, host, verb', q.path);
      }
    }
  }

  ghost function AllKeys(services: seq<Service>): set<string> { set s, key | s in services && key in ServiceKeys(s) :: key }

  /** The loop over the services: ids, worker listeners, edge upstreams, public claims. */
  method ClaimServices(services: seq<Service>) returns (ok: bool)
    requires forall s :: s in services ==> TidyService(s)
    ensures ok <==> Pairwise(services, Compatible)
  {
    var ids: set<string>, listeners: set<Address>, upstreams: set<Address>, claims: set<string> := {}, {}, {}, {};
    for i := 0 to |services|
      invariant ids == set s | s in services[..i] :: s.id
      invariant listeners == set s | s in services[..i] :: s.listen
      invariant upstreams == set s | s in services[..i] :: s.upstream
      invariant claims == AllKeys(services[..i])
      invariant Pairwise(services[..i], Compatible)
    {
      var s := services[i];
      assert s in services;
      PrefixPairwise(services, i, Compatible);
      CompatibleSoFar(services, i);
      assert services[..i + 1] == services[..i] + [s];
      if s.id in ids || s.listen in listeners || s.upstream in upstreams { return false; }
      var fine;
      fine, claims := ClaimDomains(s, claims);
      if !fine { return false; }
      ids, listeners, upstreams := ids + {s.id}, listeners + {s.listen}, upstreams + {s.upstream};
    }
    assert services[..|services|] == services;
    return true;
  }

  /** What the four sets say about the next service. */
  lemma CompatibleSoFar(services: seq<Service>, i: nat)
    requires (forall s :: s in services ==> TidyService(s)) && i < |services|
    ensures var s := services[i]; var seen := services[..i];
            (forall k :: 0 <= k < i ==> Compatible(services[k], s)) <==>
            && s.id !in (set t | t in seen :: t.id)
            && s.listen !in (set t | t in seen :: t.listen)
            && s.upstream !in (set t | t in seen :: t.upstream)
            && ServiceKeys(s) !! AllKeys(seen)
    ensures !(forall k :: 0 <= k < i ==> Compatible(services[k], services[i])) ==> !Pairwise(services, Compatible)
  {
    var s, seen := services[i], services[..i];
    forall t | t in seen ensures ServiceKeys(t) !! ServiceKeys(s) <==> !SharesClaim(t, s) {
      assert t in services && s in services;
      SharedServiceKey(t, s);
    }
    if forall k :: 0 <= k < i ==> Compatible(services[k], s) {
      forall t | t in seen ensures Compatible(t, s) { var k :| 0 <= k < i && services[k] == t; }
    } else {
      var k :| 0 <= k < i && !Compatible(services[k], s);
      assert seen[k] == services[k];
      if SharesClaim(services[k], s) {
        var key :| key in ServiceKeys(services[k]) && key in ServiceKeys(s);
        assert key in AllKeys(seen);
      }
    }
  }
}

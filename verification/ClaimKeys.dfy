/** The NUL-joined texts under which the policy code files its claims. */
module ClaimKeys {
  import opened Texts
  import opened Reordering
  import opened RequestPath
  import opened ManifestScalars
  import opened ManifestParts
  import opened Manifests

  const NUL := 0 as char

  /** `${method}\u0000${path}` */
  function PairKey(verb: string, path: string): string { verb + [NUL] + path }

  /** `${host}\u0000${method}\u0000${path}` */
  function ClaimKey(host: string, verb: string, path: string): string { host + [NUL] + PairKey(verb, path) }

  lemma CutAtNul(a: string, x: string, b: string, y: string)
    requires NUL !in a && NUL !in b && a + [NUL] + x == b + [NUL] + y
    ensures a == b && x == y
  {
    var s := a + [NUL] + x;
    assert s[|a|] == NUL && s[|b|] == NUL;
    assert forall i :: 0 <= i < |a| ==> s[i] == a[i];
    assert forall i :: 0 <= i < |b| ==> s[i] == b[i];
    assert |a| == |b|;
    assert s[..|a|] == a && s[..|b|] == b && s[|a| + 1..] == x && s[|b| + 1..] == y;
  }

  /** Keys of NUL-free parts are equal exactly when the parts are. */
  lemma PairKeyIsInjective(verb: string, path: string, verb': string, path': string)
    requires NUL !in verb && NUL !in verb'
    ensures PairKey(verb, path) == PairKey(verb', path') <==> verb == verb' && path == path'
  {
    if PairKey(verb, path) == PairKey(verb', path') { CutAtNul(verb, path, verb', path'); }
  }

  lemma ClaimKeyIsInjective(host: string, verb: string, path: string, host': string, verb': string, path': string)
    requires NUL !in host && NUL !in host' && NUL !in verb && NUL !in verb'
    ensures ClaimKey(host, verb, path) == ClaimKey(host', verb', path') <==> host == host' && verb == verb' && path == path'
  {
    if ClaimKey(host, verb, path) == ClaimKey(host', verb', path') {
      CutAtNul(host, PairKey(verb, path), host', PairKey(verb', path'));
      PairKeyIsInjective(verb, path, verb', path');
    }
  }

  // ----- what a normal manifest is made of has no NUL

  lemma MethodsHaveNoNul(verb: string)
    requires verb in METHODS
    ensures NUL !in verb
  {
  }

  lemma DomainsHaveNoNul(d: string)
    requires DomainOk(d) && Lower(d) == d
    ensures NUL !in d
  {
  }

  // ----- the keys of whole parts

  ghost function MethodKeys(host: string, r: Route): set<string> { set verb | verb in r.methods :: ClaimKey(host, verb, r.path) }

  ghost function RouteKeys(host: string, routes: seq<Route>): set<string> {
    set r, verb | r in routes && verb in r.methods :: ClaimKey(host, verb, r.path)
  }

  ghost function DomainKeys(domains: seq<string>, routes: seq<Route>): set<string> {
    set d, r, verb | d in domains && r in routes && verb in r.methods :: ClaimKey(d, verb, r.path)
  }

  ghost function ServiceKeys(s: Service): set<string> { DomainKeys(s.domains, s.routes) }

  /** What the loops over claims rely on: NUL-free words and no claim twice. */
  ghost predicate TidyRoute(r: Route) { Pairwise(r.methods, Differ) && forall verb :: verb in r.methods ==> NUL !in verb }

  ghost predicate TidyRoutes(routes: seq<Route>) {
    Pairwise(routes, Unclaimed) && forall r :: r in routes ==> TidyRoute(r)
  }

  ghost predicate TidyService(s: Service) {
    && TidyRoutes(s.routes) && Pairwise(s.domains, Differ)
    && forall d :: d in s.domains ==> NUL !in d
  }

  lemma SharedMethodKey(host: string, r: Route, host': string, q: Route)
    requires NUL !in host && NUL !in host' && TidyRoute(r) && TidyRoute(q)
    ensures MethodKeys(host, r) !! MethodKeys(host', q) <==> host != host' || Unclaimed(r, q)
  {
    forall verb, verb' | verb in r.methods && verb' in q.methods
      ensures ClaimKey(host, verb, r.path) == ClaimKey(host', verb', q.path) <==> host == host' && verb == verb' && r.path == q.path
    {
      ClaimKeyIsInjective(host, verb, r.path, host', verb', q.path);
    }
    if host == host' && !Unclaimed(r, q) {
      var verb :| verb in r.methods && verb in q.methods;
      assert ClaimKey(host, verb, r.path) in MethodKeys(host, r) && ClaimKey(host, verb, r.path) in MethodKeys(host', q);
    }
  }

  /** Two services share a claim exactly when they share a key. */
  lemma SharedServiceKey(s: Service, t: Service)
    requires TidyService(s) && TidyService(t)
    ensures ServiceKeys(s) !! ServiceKeys(t) <==> !SharesClaim(s, t)
  {
    if d, r, q :| d in s.domains && d in t.domains && r in s.routes && q in t.routes && !Unclaimed(r, q) {
      var verb :| verb in r.methods && verb in q.methods;
      assert ClaimKey(d, verb, r.path) in ServiceKeys(s) && ClaimKey(d, verb, r.path) in ServiceKeys(t);
    }
    if key :| key in ServiceKeys(s) && key in ServiceKeys(t) {
      var d, r, verb :| d in s.domains && r in s.routes && verb in r.methods && key == ClaimKey(d, verb, r.path);
      var d', q, verb' :| d' in t.domains && q in t.routes && verb' in q.methods && key == ClaimKey(d', verb', q.path);
      ClaimKeyIsInjective(d, verb, r.path, d', verb', q.path);
      assert !Unclaimed(r, q);
    }
  }
}

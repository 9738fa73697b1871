/** The decisions of both guards on raw requests, both ways: what is allowed, and with
    which reason everything else is denied. */
module RequestDecisions {
  import opened Results
  import opened Texts
  import opened Numbers
  import opened Sorting
  import opened Reordering
  import opened RequestPath
  import opened RequestPathSafety
  import opened ManifestScalars
  import opened ManifestParts
  import opened Manifests
  import opened ClaimKeys
  import opened ManifestNormalizer
  import opened HttpPolicy
  import opened PolicyGuards

  // ----- the Host header

  /** A colon and one to five digits for a number from 1 to 65535, or nothing. */
  predicate IsPortSuffix(s: string) {
    s == "" || (2 <= |s| <= 6 && s[0] == ':' && IsDigits(s[1..]) && 1 <= DecimalValue(s[1..]) <= 65535)
  }

  /** Text for which a Host header stands for the domain `host`. */
  predicate NamesDomain(value: string, host: string) {
    exists k :: 0 <= k <= |value| && DomainOk(value[..k]) && Lower(value[..k]) == host && IsPortSuffix(value[k..])
  }

  lemma DomainChars(d: string)
    requires DomainOk(d)
    ensures forall i :: 0 <= i < |d| ==> IsAlnum(d[i]) || d[i] == '-' || d[i] == '.'
  {
    forall i | 0 <= i < |d| ensures IsAlnum(d[i]) || d[i] == '-' || d[i] == '.' { assert Lower(d)[i] == LowerChar(d[i]); }
  }

  lemma ColonIsFirst(value: string, k: nat)
    requires k <= |value| && (forall i :: 0 <= i < k ==> value[i] != ':') && (k < |value| ==> value[k] == ':')
    ensures ColonAt(value) == k
  {
  }

  lemma SuffixStartsWithColon(value: string, k: nat)
    requires k < |value| && IsPortSuffix(value[k..])
    ensures value[k] == ':'
  {
    assert value[k..][0] == value[k];
  }

  lemma NoColonBefore(value: string, k: nat)
    requires k <= |value| && forall i :: 0 <= i < k ==> IsAlnum(value[..k][i]) || value[..k][i] == '-' || value[..k][i] == '.'
    ensures forall i :: 0 <= i < k ==> value[i] != ':'
  {
    forall i | 0 <= i < k ensures value[i] != ':' { assert value[i] == value[..k][i]; }
  }

  lemma ColonOfDomain(value: string, k: nat)
    requires k <= |value| && DomainOk(value[..k]) && IsPortSuffix(value[k..])
    ensures ColonAt(value) == k
  {
    DomainChars(value[..k]);
    NoColonBefore(value, k);
    if k < |value| { SuffixStartsWithColon(value, k); }
    ColonIsFirst(value, k);
  }

  /** A Host header is accepted if and only if it is a domain name, in any case, with an
      optional port; the domain in lower case is what it stands for. */
  lemma RequestHostExactly(value: string)
    ensures forall host :: RequestHost(value) == Success(host) <==> NamesDomain(value, host)
  {
    var c := ColonAt(value);
    if c < |value| { assert value[c..][1..] == value[c + 1..]; }
    forall host ensures RequestHost(value) == Success(host) <==> NamesDomain(value, host) {
      if RequestHost(value) == Success(host) {
        assert IsPortSuffix(value[c..]);
      }
      if k :| 0 <= k <= |value| && DomainOk(value[..k]) && Lower(value[..k]) == host && IsPortSuffix(value[k..]) {
        ColonOfDomain(value, k);
        PlainHost(value, k);
      }
    }
  }

  /** Such a text has none of the characters that a Host header must not have. */
  lemma PlainHost(value: string, k: nat)
    requires k <= |value| && DomainOk(value[..k]) && IsPortSuffix(value[k..])
    ensures |value| <= 512 && !("[" <= value)
    ensures forall i :: 0 <= i < |value| ==> !IsSpace(value[i]) && value[i] !in {',', '@', '/', '\\', '%'}
  {
    HostChars(value, k);
    assert |value[..k]| <= 253 && |value[k..]| <= 6;
    if value != [] { assert IsAlnum(value[0]) || value[0] in {'-', '.', ':'}; }
  }

  lemma HostChars(value: string, k: nat)
    requires k <= |value| && DomainOk(value[..k]) && IsPortSuffix(value[k..])
    ensures forall i :: 0 <= i < |value| ==> IsAlnum(value[i]) || value[i] in {'-', '.', ':'}
  {
    DomainChars(value[..k]);
    forall i | 0 <= i < |value| ensures IsAlnum(value[i]) || value[i] in {'-', '.', ':'} {
      if i < k { assert value[i] == value[..k][i]; }
      else if i > k { assert value[i] == value[k..][1..][i - k - 1]; }
      else { assert value[i] == value[k..][0]; }
    }
  }

  // ----- the edge

  const VERBS := {"GET", "POST", "PUT", "PATCH", "DELETE", "HEAD", "OPTIONS"}

  /** Some public service of the manifest offers this. */
  ghost predicate Offered(n: Manifest, host: string, verb: string, path: string, s: Service, r: Route) {
    && s in n.services && s.exposure != Some("private") && host in s.domains
    && r in s.routes && r.path == path && verb in r.methods
  }

  /** What the request asks for is offered. */
  ghost predicate Requested(n: Manifest, value: string, url: string, verb: string, h: string, s: Service, r: Route)
    requires ParseTarget(url).Some?
  {
    NamesDomain(value, h) && Offered(n, h, verb, ParseTarget(url).value.path, s, r)
  }

  /** A request with a good host, target and method is decided by the compiled map. */
  lemma DecidedByMap(p: EdgePolicy, value: string, url: string, verb: string, h: string)
    requires RequestHost(value) == Success(h) && ParseTarget(url).Some? && verb in METHODS
    ensures DecideRequest(p, Some(value), url, verb) == Decide(p, h, verb, ParseTarget(url).value.path)
    ensures NUL !in h && NUL !in verb
  {
    HostHasNoNul(value);
    MethodsHaveNoNul(verb);
  }

  lemma OfferedIsDecided(n: Manifest, p: EdgePolicy, h: string, verb: string, path: string, s: Service, r: Route)
    requires IsNormal(n) && Compiled(p, n) && NUL !in h && NUL !in verb && Offered(n, h, verb, path, s, r)
    ensures Decide(p, h, verb, path) == Allowed("exact-claim", s, Some(r), s.upstream)
  {
    assert Offers(n, s, r, h, verb, path);
    LookupIsScan(n, p, h, verb, path);
  }

  lemma RequestedIsAllowed(
    n: Manifest, p: EdgePolicy, value: string, url: string, verb: string, h: string, s: Service, r: Route)
    requires IsNormal(n) && Compiled(p, n) && ParseTarget(url).Some? && verb in METHODS
    requires Requested(n, value, url, verb, h, s, r)
    ensures DecideRequest(p, Some(value), url, verb) == Allowed("exact-claim", s, Some(r), s.upstream)
  {
    RequestHostExactly(value);
    DecidedByMap(p, value, url, verb, h);
    OfferedIsDecided(n, p, h, verb, ParseTarget(url).value.path, s, r);
  }

  lemma AllowedIsRequested(n: Manifest, p: EdgePolicy, host: Option<string>, url: string, verb: string)
    returns (h: string, s: Service, r: Route)
    requires IsNormal(n) && Compiled(p, n) && DecideRequest(p, host, url, verb).Allowed?
    ensures host.Some? && ParseTarget(url).Some? && verb in METHODS && Requested(n, host.value, url, verb, h, s, r)
  {
    r := AllowedRequest(n, p, host, url, verb);
    h, s := RequestHost(host.value).value, DecideRequest(p, host, url, verb).service;
    RequestHostExactly(host.value);
  }

  /** The edge allows a raw request if and only if there is one Host header and it stands
      for a domain, the target parses, the method is known, and some public service offers
      domain, method and path; it then answers with that service, route and upstream. */
  lemma DecideRequestExactly(n: Manifest, p: EdgePolicy, host: Option<string>, url: string, verb: string)
    requires IsNormal(n) && Compiled(p, n)
    ensures var d := DecideRequest(p, host, url, verb);
            && (d.Allowed? <==>
                  && host.Some? && ParseTarget(url).Some?
                  && verb in VERBS
                  && exists h, s, r :: Requested(n, host.value, url, verb, h, s, r))
            && (d.Allowed? ==>
                  forall h, s, r :: Requested(n, host.value, url, verb, h, s, r) ==>
                    d == Allowed("exact-claim", s, Some(r), s.upstream))
  {
    if DecideRequest(p, host, url, verb).Allowed? { var h, s, r := AllowedIsRequested(n, p, host, url, verb); }
    if host.Some? && ParseTarget(url).Some? && verb in METHODS {
      forall h, s, r | Requested(n, host.value, url, verb, h, s, r)
        ensures DecideRequest(p, host, url, verb) == Allowed("exact-claim", s, Some(r), s.upstream)
      {
        RequestedIsAllowed(n, p, host.value, url, verb, h, s, r);
      }
    }
  }

  /** What is wrong with a request before any service is looked for: the Host header is
      judged first, then the target, then the method. */
  ghost function Defect(host: Option<string>, url: string, verb: string): Option<string> {
    if host.None? || BadHost(host.value) then Some("invalid_host")
    else if !exists h :: NamesDomain(host.value, h) then Some("security_policy")
    else if ParseTarget(url).None? then Some("unsafe_path")
    else if verb !in VERBS then Some("security_policy")
    else None
  }

  /** A request with a defect is denied with it as the reason; any other request that is
      denied is told whether a public service has its domain. */
  lemma DenialExactly(n: Manifest, p: EdgePolicy, host: Option<string>, url: string, verb: string)
    requires IsNormal(n) && Compiled(p, n)
    ensures Defect(host, url, verb).Some? ==> DecideRequest(p, host, url, verb) == Denied(Defect(host, url, verb).value)
    ensures Defect(host, url, verb).None? && DecideRequest(p, host, url, verb).Denied? ==>
              DecideRequest(p, host, url, verb).reason ==
                if exists h, s :: NamesDomain(host.value, h) && HasPublic(n, h, s) then "route-not-allowed" else "host-not-allowed"
  {
    if Defect(host, url, verb).Some? { DefectDenies(p, host, url, verb); }
    else if DecideRequest(p, host, url, verb).Denied? { SoundRequestDenied(n, p, host.value, url, verb); }
  }

  lemma DefectDenies(p: EdgePolicy, host: Option<string>, url: string, verb: string)
    requires Defect(host, url, verb).Some?
    ensures DecideRequest(p, host, url, verb) == Denied(Defect(host, url, verb).value)
  {
    if host.Some? { NamedExactly(host.value); }
    assert VERBS == METHODS;
  }

  lemma SoundRequestDenied(n: Manifest, p: EdgePolicy, value: string, url: string, verb: string)
    requires Compiled(p, n) && Defect(Some(value), url, verb).None? && DecideRequest(p, Some(value), url, verb).Denied?
    ensures DecideRequest(p, Some(value), url, verb).reason ==
              if exists h, s :: NamesDomain(value, h) && HasPublic(n, h, s) then "route-not-allowed" else "host-not-allowed"
  {
    NamedExactly(value);
    var h :| NamesDomain(value, h);
    DecidedByMap(p, value, url, verb, h);
    KnownHost(n, p, h, verb, ParseTarget(url).value.path);
    if s :| HasPublic(n, h, s) { assert NamesDomain(value, h) && HasPublic(n, h, s); }
  }

  lemma NamedExactly(value: string)
    ensures BadHost(value) <==> RequestHost(value) == Failure("invalid_host")
    ensures RequestHost(value).Failure? && !BadHost(value) ==> RequestHost(value) == Failure("security_policy")
    ensures RequestHost(value).Success? <==> exists h :: NamesDomain(value, h)
    ensures RequestHost(value).Success? ==> forall h :: NamesDomain(value, h) <==> h == RequestHost(value).value
  {
    RequestHostExactly(value);
    BadHostExactly(value);
    if RequestHost(value).Success? { assert NamesDomain(value, RequestHost(value).value); }
  }

  ghost predicate HasPublic(n: Manifest, h: string, s: Service) {
    s in n.services && s.exposure != Some("private") && h in s.domains
  }

  lemma KnownHost(n: Manifest, p: EdgePolicy, h: string, verb: string, path: string)
    requires Compiled(p, n) && Decide(p, h, verb, path).Denied?
    ensures Decide(p, h, verb, path).reason ==
              if exists s :: HasPublic(n, h, s) then "route-not-allowed" else "host-not-allowed"
  {
    DenialReason(n, p, h, verb, path);
    if s :| s in n.services && !IsPrivate(s) && h in s.domains { assert HasPublic(n, h, s); }
    if s :| HasPublic(n, h, s) { assert !IsPrivate(s); }
  }

  /** The Host header is too long, a literal address, has a forbidden character, more than
      one colon or a bad port. */
  predicate BadHost(value: string) {
    || |value| > 512 || (value != "" && value[0] == '[')
    || (exists i :: 0 <= i < |value| && (IsSpace(value[i]) || value[i] in {',', '@', '/', '\\', '%'}))
    || (exists k :: 0 <= k < |value| && value[k] == ':' && ':' !in value[..k] && !IsPortSuffix(value[k..]))
  }

  lemma BadHostExactly(value: string)
    ensures BadHost(value) <==> RequestHost(value) == Failure("invalid_host")
  {
    var c := ColonAt(value);
    if c < |value| {
      assert value[c..][1..] == value[c + 1..] && value[c..][0] == ':';
      assert ':' !in value[..c];
    }
    if k :| 0 <= k < |value| && value[k] == ':' && ':' !in value[..k] && !IsPortSuffix(value[k..]) {
      forall i | 0 <= i < k ensures value[i] != ':' { assert value[i] in value[..k]; }
      ColonIsFirst(value, k);
    }
  }

  // ----- a request that follows the manifest

  lemma PathHasNoQuestion(path: string)
    requires IsRoutePath(path)
    ensures '?' !in path && '#' !in path && path != [] && path[0] == '/' && |path| <= 2048
    ensures !("//" <= path) && !HasDoubleSlash(path) && NoTraversal(path).Some?
    ensures forall i :: 0 <= i < |path| ==> !IsControl(path[i])
  {
    RoutePathIsFixed(path);
    assert QuestionAt(path) == |path| by { assert path[..QuestionAt(path)] == path; }
    assert path[..|path|] == path;
  }

  lemma QuestionAfter(path: string, query: string)
    requires '?' !in path && (query == "" || query[0] == '?')
    ensures QuestionAt(path + query) == |path|
  {
    QuestionIsFirst(path + query, |path|);
  }

  lemma QuestionIsFirst(s: string, k: nat)
    requires k <= |s| && (forall i :: 0 <= i < k ==> s[i] != '?') && (k < |s| ==> s[k] == '?')
    ensures QuestionAt(s) == k
  {
  }

  /** A configured path with a query is parsed into the two. */
  lemma PathWithQuery(path: string, query: string)
    requires IsRoutePath(path) && (query == "" || query[0] == '?') && |query| <= 10_000
    requires '#' !in query && forall i :: 0 <= i < |query| ==> !IsControl(query[i])
    ensures ParseTarget(path + query) == Some(Target(path, query, path + query))
  {
    PathHasNoQuestion(path);
    QuestionAfter(path, query);
    var url := path + query;
    assert url[..|path|] == path && url[|path|..] == query;
    assert !("//" <= url) by { if |path| == 1 && query != [] { assert url[1] == '?'; } }
  }

  /** For every public claim of the manifest the request that names its domain, with or
      without a port, and its path, with or without a query, is allowed as that claim. */
  lemma CanonicalRequestIsAllowed(
    n: Manifest, p: EdgePolicy, s: Service, r: Route, domain: string, verb: string, port: string, query: string)
    requires IsNormal(n) && Compiled(p, n) && Offered(n, domain, verb, r.path, s, r)
    requires IsPortSuffix(port) && (query == "" || query[0] == '?') && |query| <= 10_000
    requires '#' !in query && forall i :: 0 <= i < |query| ==> !IsControl(query[i])
    ensures DecideRequest(p, Some(domain + port), r.path + query, verb) == Allowed("exact-claim", s, Some(r), s.upstream)
  {
    NormalServices(n);
    assert RouteOk(r, s.profile);
    NormalDomains(s);
    var value := domain + port;
    assert value[..|domain|] == domain && value[|domain|..] == port;
    assert NamesDomain(value, domain);
    PathWithQuery(r.path, query);
    RequestedIsAllowed(n, p, value, r.path + query, verb, domain, s, r);
  }

  lemma NormalDomains(s: Service)
    requires ServiceOk(s) && NormalService(s) == s
    ensures forall d :: d in s.domains ==> DomainOk(d) && Lower(d) == d
  {
    forall d | d in s.domains ensures DomainOk(d) && Lower(d) == d {
      SortHasMembers(Map(s.domains, Lower), Before);
      var i :| 0 <= i < |s.domains| && Map(s.domains, Lower)[i] == d;
      LowerIsIdempotent(s.domains[i]);
    }
  }

  // ----- a worker

  /** A worker allows a raw request if and only if the target parses, the method is known,
      and its service offers method and path, or it is a GET of the private health path. */
  lemma WorkerDecideRequestExactly(n: Manifest, s: Service, url: string, verb: string)
    requires IsNormal(n) && s in n.services
    ensures var d := WorkerDecideRequest(WorkerPolicy(s, AllPairKeys(s.routes)), url, verb);
            if ParseTarget(url).None? then d == Denied("unsafe_path")
            else if verb !in VERBS then d == Denied("security_policy")
            else
              var path := ParseTarget(url).value.path;
              if exists r :: r in s.routes && r.path == path && verb in r.methods
              then d == Allowed("exact-claim", s, None, s.target)
              else if s.healthPath == Some(path) && verb == "GET" then d == Allowed("private-health", s, None, s.target)
              else d == Denied("route-not-allowed")
  {
    NormalServices(n);
    if ParseTarget(url).Some? && verb in METHODS {
      WorkerClaims(s, verb, ParseTarget(url).value.path);
    }
  }

  lemma WorkerClaims(s: Service, verb: string, path: string)
    requires TidyService(s) && verb in METHODS
    ensures PairKey(verb, path) in AllPairKeys(s.routes) <==> exists r :: r in s.routes && r.path == path && verb in r.methods
  {
    if PairKey(verb, path) in AllPairKeys(s.routes) {
      var r, v :| r in s.routes && v in r.methods && PairKey(verb, path) == PairKey(v, r.path);
      MethodsHaveNoNul(verb);
      PairKeyIsInjective(verb, path, v, r.path);
    }
  }
}

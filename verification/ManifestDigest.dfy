/** `manifestDigest` (src/config.js): the canonical text of the normalised manifest.
    SHA-256 is modelled by the text itself. */
module ManifestDigest {
  import opened Results
  import Numbers
  import opened StableText
  import opened StableUniqueness
  import opened JsonObjects
  import opened Sorting
  import opened Reordering
  import opened ManifestScalars
  import opened ManifestParts
  import opened Manifests
  import opened ManifestCanonical

  // ----- addresses as texts

  function AddressText(a: Address): string { if a.port < 0 then a.host else a.host + ":" + Numbers.Decimal(a.port) }

  function UrlText(secure: bool, a: Address): string { (if secure then "https://" else "http://") + AddressText(a) }

  lemma AddressTextIsInjective(a: Address, b: Address)
    requires IsListener(a) && IsListener(b) && AddressText(a) == AddressText(b)
    ensures a == b
  {
    var k := |LOOPBACK| + 1;
    assert AddressText(a)[k..] == Numbers.Decimal(a.port) && AddressText(b)[k..] == Numbers.Decimal(b.port);
    Numbers.DecimalIsCanonical(a.port);
    Numbers.DecimalIsCanonical(b.port);
  }

  lemma UrlTextIsInjective(s: bool, a: Address, t: bool, b: Address)
    requires IsListener(a) && IsListener(b) && UrlText(s, a) == UrlText(t, b)
    ensures s == t && a == b
  {
    assert UrlText(s, a)[4] == (if s then 's' else ':') && UrlText(t, b)[4] == (if t then 's' else ':');
    var k := if s then 8 else 7;
    assert UrlText(s, a)[k..] == AddressText(a) && UrlText(t, b)[k..] == AddressText(b);
    AddressTextIsInjective(a, b);
  }

  function Listener(a: Address): Option<Value> { Some(String(AddressText(a))) }

  function Url(a: Address): Option<Value> { Some(String(UrlText(false, a))) }

  lemma ListenerIsInjective(a: Address, b: Address)
    requires IsListener(a) && IsListener(b) && SameField(Listener(a), Listener(b))
    ensures a == b
  {
    UnitsAreInjective(AddressText(a), AddressText(b));
    AddressTextIsInjective(a, b);
  }

  lemma UrlIsInjective(a: Address, b: Address)
    requires IsListener(a) && IsListener(b) && SameField(Url(a), Url(b))
    ensures a == b
  {
    UnitsAreInjective(UrlText(false, a), UrlText(false, b));
    UrlTextIsInjective(false, a, false, b);
  }

  // ----- services

  const ROUTE_KEYS := ["path", "methods"]
  const UPSTREAM_KEYS := ["upstream"]
  const WORKER_KEYS := ["listen", "target", "healthPath"]
  const PUBLIC_KEYS := ["tokenSet", "routes", "maxBodyBytes", "maxConcurrentRequests", "idleTimeoutSeconds", "forwardCookies"]
  const SERVICE_KEYS := ["id", "domains", "edge", "worker", "public", "exposure", "profile"]

  lemma ServiceKeysDiffer()
    ensures AllDifferent(ROUTE_KEYS) && AllDifferent(UPSTREAM_KEYS) && AllDifferent(WORKER_KEYS)
    ensures AllDifferent(PUBLIC_KEYS) && AllDifferent(SERVICE_KEYS)
  {
    assert PUBLIC_KEYS[0][0] == 't' && PUBLIC_KEYS[1][0] == 'r' && PUBLIC_KEYS[2][3] == 'B' && PUBLIC_KEYS[3][3] == 'C';
    assert PUBLIC_KEYS[4][0] == 'i' && PUBLIC_KEYS[5][0] == 'f';
    assert SERVICE_KEYS[1][0] == 'd' && SERVICE_KEYS[2][1] == 'd' && SERVICE_KEYS[3][0] == 'w';
    assert SERVICE_KEYS[4][1] == 'u' && SERVICE_KEYS[5][1] == 'x' && SERVICE_KEYS[6][1] == 'r';
  }

  function RouteFields(r: Route): seq<Option<Value>> { [Some(String(r.path)), Some(Strings(r.methods))] }

  function RouteValue(r: Route): Value { Object(ROUTE_KEYS, RouteFields(r)) }

  function WorkerFields(s: Service): seq<Option<Value>> { [Listener(s.listen), Url(s.target), TextField(s.healthPath)] }

  function Flag(b: Option<bool>): Option<Value> { if b == Some(true) then Some(Bool(true)) else None }

  function PublicFields(s: Service): seq<Option<Value>> {
    [Some(String(s.tokenSet)), Some(List(s.routes, RouteValue)), NumberField(s.maxBodyBytes),
     NumberField(s.maxConcurrentRequests), NumberField(s.idleTimeoutSeconds), Flag(s.forwardCookies)]
  }

  function ServiceFields(s: Service): seq<Option<Value>> {
    [Some(String(s.id)), Some(Strings(s.domains)), Some(Object(UPSTREAM_KEYS, [Url(s.upstream)])),
     Some(Object(WORKER_KEYS, WorkerFields(s))), Some(Object(PUBLIC_KEYS, PublicFields(s))),
     TextField(s.exposure), TextField(s.profile)]
  }

  function ServiceValue(s: Service): Value { Object(SERVICE_KEYS, ServiceFields(s)) }

  predicate NormalOne(s: Service) { ServiceOk(s) && NormalService(s) == s }

  lemma RouteValueIsInjective(r: Route, q: Route)
    requires Same(RouteValue(r), RouteValue(q))
    ensures r == q
  {
    ServiceKeysDiffer();
    var x, y := RouteFields(r), RouteFields(q);
    SameObjects(ROUTE_KEYS, x, y);
    SameString(x, y, 0, r.path, q.path);
    assert SameField(x[1], y[1]);
    StringsAreInjective(r.methods, q.methods);
  }

  lemma WorkerIsInjective(s: Service, t: Service)
    requires IsListener(s.listen) && IsListener(t.listen) && IsListener(s.target) && IsListener(t.target)
    requires Same(Object(WORKER_KEYS, WorkerFields(s)), Object(WORKER_KEYS, WorkerFields(t)))
    ensures s.listen == t.listen && s.target == t.target && s.healthPath == t.healthPath
  {
    ServiceKeysDiffer();
    var x, y := WorkerFields(s), WorkerFields(t);
    SameObjects(WORKER_KEYS, x, y);
    assert SameField(x[0], y[0]) && SameField(x[1], y[1]) && SameField(x[2], y[2]);
    ListenerIsInjective(s.listen, t.listen);
    UrlIsInjective(s.target, t.target);
    TextFieldIsInjective(s.healthPath, t.healthPath);
  }

  lemma FlagIsInjective(a: Option<bool>, b: Option<bool>)
    requires a != Some(false) && b != Some(false) && SameField(Flag(a), Flag(b))
    ensures a == b
  {
    assert (a.Some? ==> a.value) && (b.Some? ==> b.value);
  }

  lemma PublicIsInjective(s: Service, t: Service)
    requires s.forwardCookies != Some(false) && t.forwardCookies != Some(false)
    requires Same(Object(PUBLIC_KEYS, PublicFields(s)), Object(PUBLIC_KEYS, PublicFields(t)))
    ensures s.tokenSet == t.tokenSet && s.routes == t.routes && s.forwardCookies == t.forwardCookies
    ensures s.maxBodyBytes == t.maxBodyBytes && s.maxConcurrentRequests == t.maxConcurrentRequests
    ensures s.idleTimeoutSeconds == t.idleTimeoutSeconds
  {
    ServiceKeysDiffer();
    var x, y := PublicFields(s), PublicFields(t);
    SameObjects(PUBLIC_KEYS, x, y);
    SameString(x, y, 0, s.tokenSet, t.tokenSet);
    assert SameField(x[1], y[1]) && SameField(x[2], y[2]) && SameField(x[3], y[3]);
    assert SameField(x[4], y[4]) && SameField(x[5], y[5]);
    forall a, b | a in s.routes && b in t.routes && Same(RouteValue(a), RouteValue(b)) ensures a == b {
      RouteValueIsInjective(a, b);
    }
    ListIsInjective(s.routes, t.routes, RouteValue);
    NumberFieldIsInjective(s.maxBodyBytes, t.maxBodyBytes);
    NumberFieldIsInjective(s.maxConcurrentRequests, t.maxConcurrentRequests);
    NumberFieldIsInjective(s.idleTimeoutSeconds, t.idleTimeoutSeconds);
    FlagIsInjective(s.forwardCookies, t.forwardCookies);
  }

  lemma UpstreamIsInjective(a: Address, b: Address)
    requires IsListener(a) && IsListener(b) && Same(Object(UPSTREAM_KEYS, [Url(a)]), Object(UPSTREAM_KEYS, [Url(b)]))
    ensures a == b
  {
    ServiceKeysDiffer();
    SameObjects(UPSTREAM_KEYS, [Url(a)], [Url(b)]);
    assert SameField([Url(a)][0], [Url(b)][0]);
    UrlIsInjective(a, b);
  }

  /** The same service values have the same parts. */
  lemma SameServiceFields(s: Service, t: Service)
    requires Same(ServiceValue(s), ServiceValue(t))
    ensures s.id == t.id && Same(Strings(s.domains), Strings(t.domains))
    ensures Same(Object(UPSTREAM_KEYS, [Url(s.upstream)]), Object(UPSTREAM_KEYS, [Url(t.upstream)]))
    ensures Same(Object(WORKER_KEYS, WorkerFields(s)), Object(WORKER_KEYS, WorkerFields(t)))
    ensures Same(Object(PUBLIC_KEYS, PublicFields(s)), Object(PUBLIC_KEYS, PublicFields(t)))
    ensures SameField(TextField(s.exposure), TextField(t.exposure)) && SameField(TextField(s.profile), TextField(t.profile))
  {
    ServiceKeysDiffer();
    var x, y := ServiceFields(s), ServiceFields(t);
    SameObjects(SERVICE_KEYS, x, y);
    assert SameField(x[1], y[1]) && SameField(x[2], y[2]) && SameField(x[3], y[3]);
    assert SameField(x[4], y[4]) && SameField(x[5], y[5]) && SameField(x[6], y[6]);
    SameString(x, y, 0, s.id, t.id);
  }

  lemma ServiceValueIsInjective(s: Service, t: Service)
    requires NormalOne(s) && NormalOne(t) && Same(ServiceValue(s), ServiceValue(t))
    ensures s == t
  {
    SameServiceFields(s, t);
    StringsAreInjective(s.domains, t.domains);
    UpstreamIsInjective(s.upstream, t.upstream);
    WorkerIsInjective(s, t);
    assert s.forwardCookies != Some(false) && t.forwardCookies != Some(false);
    PublicIsInjective(s, t);
    TextFieldIsInjective(s.exposure, t.exposure);
    TextFieldIsInjective(s.profile, t.profile);
  }

  // ----- the edge

  const LISTENER_KEYS := ["service", "listen"]
  const SITE_KEYS := ["host", "upstream", "tlsServerName"]
  const EDGE_KEYS := ["gatewayListen", "httpPort", "httpsPort", "compatibilityListen", "compatibilityService",
                      "privateListeners", "existingSites"]

  lemma EdgeKeysDiffer()
    ensures AllDifferent(LISTENER_KEYS) && AllDifferent(SITE_KEYS) && AllDifferent(EDGE_KEYS)
  {
    assert EDGE_KEYS[0][0] == 'g' && EDGE_KEYS[1][4] == 'P' && EDGE_KEYS[2][4] == 's' && EDGE_KEYS[3][13] == 'L';
    assert EDGE_KEYS[4][13] == 'S' && EDGE_KEYS[5][0] == 'p' && EDGE_KEYS[6][0] == 'e';
  }

  function ListenerFields(p: PrivateListener): seq<Option<Value>> { [Some(String(p.service)), Listener(p.listen)] }

  function ListenerValue(p: PrivateListener): Value { Object(LISTENER_KEYS, ListenerFields(p)) }

  function SiteFields(s: Site): seq<Option<Value>> {
    [Some(String(s.host)), Some(String(UrlText(s.secure, s.upstream))), TextField(s.tlsServerName)]
  }

  function SiteValue(s: Site): Value { Object(SITE_KEYS, SiteFields(s)) }

  function OptionalListener(a: Option<Address>): Option<Value> { if a.Some? then Listener(a.value) else None }

  function OptionalList<T>(items: Option<seq<T>>, value: T -> Value): Option<Value> {
    if items.Some? then Some(List(items.value, value)) else None
  }

  function EdgeFields(e: Edge): seq<Option<Value>> {
    [Listener(e.gatewayListen), NumberField(e.httpPort), NumberField(e.httpsPort),
     OptionalListener(e.compatibilityListen), TextField(e.compatibilityService),
     OptionalList(e.privateListeners, ListenerValue), OptionalList(e.existingSites, SiteValue)]
  }

  lemma ListenerValueIsInjective(p: PrivateListener, q: PrivateListener)
    requires ListenerOk(p) && ListenerOk(q) && Same(ListenerValue(p), ListenerValue(q))
    ensures p == q
  {
    EdgeKeysDiffer();
    var x, y := ListenerFields(p), ListenerFields(q);
    SameObjects(LISTENER_KEYS, x, y);
    SameString(x, y, 0, p.service, q.service);
    assert SameField(x[1], y[1]);
    ListenerIsInjective(p.listen, q.listen);
  }

  lemma SiteValueIsInjective(s: Site, t: Site)
    requires SiteOk(s) && SiteOk(t) && Same(SiteValue(s), SiteValue(t))
    ensures s == t
  {
    EdgeKeysDiffer();
    var x, y := SiteFields(s), SiteFields(t);
    SameObjects(SITE_KEYS, x, y);
    SameString(x, y, 0, s.host, t.host);
    SameString(x, y, 1, UrlText(s.secure, s.upstream), UrlText(t.secure, t.upstream));
    UrlTextIsInjective(s.secure, s.upstream, t.secure, t.upstream);
    assert SameField(x[2], y[2]);
    TextFieldIsInjective(s.tlsServerName, t.tlsServerName);
  }

  lemma ListenersAreInjective(x: Option<seq<PrivateListener>>, y: Option<seq<PrivateListener>>)
    requires ListenersOk(Listed(x)) && ListenersOk(Listed(y))
    requires SameField(OptionalList(x, ListenerValue), OptionalList(y, ListenerValue))
    ensures x == y
  {
    if x.Some? && y.Some? {
      forall a, b | a in x.value && b in y.value && Same(ListenerValue(a), ListenerValue(b)) ensures a == b {
        ListenerValueIsInjective(a, b);
      }
      ListIsInjective(x.value, y.value, ListenerValue);
    }
  }

  lemma SitesAreInjective(x: Option<seq<Site>>, y: Option<seq<Site>>)
    requires SitesOk(Listed(x)) && SitesOk(Listed(y))
    requires SameField(OptionalList(x, SiteValue), OptionalList(y, SiteValue))
    ensures x == y
  {
    if x.Some? && y.Some? {
      forall a, b | a in x.value && b in y.value && Same(SiteValue(a), SiteValue(b)) ensures a == b {
        SiteValueIsInjective(a, b);
      }
      ListIsInjective(x.value, y.value, SiteValue);
    }
  }

  lemma EdgeIsInjective(e: Edge, f: Edge)
    requires EdgeOk(e) && EdgeOk(f) && Same(Object(EDGE_KEYS, EdgeFields(e)), Object(EDGE_KEYS, EdgeFields(f)))
    ensures e == f
  {
    EdgeKeysDiffer();
    var x, y := EdgeFields(e), EdgeFields(f);
    SameObjects(EDGE_KEYS, x, y);
    assert SameField(x[0], y[0]) && SameField(x[1], y[1]) && SameField(x[2], y[2]) && SameField(x[3], y[3]);
    assert SameField(x[4], y[4]) && SameField(x[5], y[5]) && SameField(x[6], y[6]);
    ListenerIsInjective(e.gatewayListen, f.gatewayListen);
    NumberFieldIsInjective(e.httpPort, f.httpPort);
    NumberFieldIsInjective(e.httpsPort, f.httpsPort);
    if e.compatibilityListen.Some? && f.compatibilityListen.Some? {
      ListenerIsInjective(e.compatibilityListen.value, f.compatibilityListen.value);
    }
    TextFieldIsInjective(e.compatibilityService, f.compatibilityService);
    ListenersAreInjective(e.privateListeners, f.privateListeners);
    SitesAreInjective(e.existingSites, f.existingSites);
  }

  // ----- the transport and the whole

  const TRANSPORT_KEYS := ["provider", "sshHost", "sshUser", "sshPort", "hostKeyAlias"]
  const METADATA_KEYS := ["name"]
  const SPEC_KEYS := ["edge", "transport", "services"]
  const MANIFEST_KEYS := ["apiVersion", "kind", "metadata", "spec"]

  lemma ManifestKeysDiffer()
    ensures AllDifferent(TRANSPORT_KEYS) && AllDifferent(METADATA_KEYS)
    ensures AllDifferent(SPEC_KEYS) && AllDifferent(MANIFEST_KEYS)
  {
    assert TRANSPORT_KEYS[0][0] == 'p' && TRANSPORT_KEYS[1][3] == 'H' && TRANSPORT_KEYS[2][3] == 'U';
    assert TRANSPORT_KEYS[3][3] == 'P' && TRANSPORT_KEYS[4][0] == 'h';
  }

  function TransportFields(t: Transport): seq<Option<Value>> {
    [Some(String(t.provider)), TextField(t.sshHost), Some(String(t.sshUser)), NumberField(t.sshPort),
     TextField(t.hostKeyAlias)]
  }

  function SpecFields(m: Manifest): seq<Option<Value>> {
    [Some(Object(EDGE_KEYS, EdgeFields(m.edge))), Some(Object(TRANSPORT_KEYS, TransportFields(m.transport))),
     Some(List(m.services, ServiceValue))]
  }

  function ManifestFields(m: Manifest): seq<Option<Value>> {
    [Some(String(m.apiVersion)), Some(String(m.kind)),
     Some(Object(METADATA_KEYS, [Some(String(m.name))])), Some(Object(SPEC_KEYS, SpecFields(m)))]
  }

  function ManifestValue(m: Manifest): Value { Object(MANIFEST_KEYS, ManifestFields(m)) }

  lemma TransportIsInjective(t: Transport, u: Transport)
    requires Same(Object(TRANSPORT_KEYS, TransportFields(t)), Object(TRANSPORT_KEYS, TransportFields(u)))
    ensures t == u
  {
    ManifestKeysDiffer();
    var x, y := TransportFields(t), TransportFields(u);
    SameObjects(TRANSPORT_KEYS, x, y);
    assert SameField(x[1], y[1]) && SameField(x[3], y[3]) && SameField(x[4], y[4]);
    SameString(x, y, 0, t.provider, u.provider);
    TextFieldIsInjective(t.sshHost, u.sshHost);
    SameString(x, y, 2, t.sshUser, u.sshUser);
    NumberFieldIsInjective(t.sshPort, u.sshPort);
    TextFieldIsInjective(t.hostKeyAlias, u.hostKeyAlias);
  }

  /** What normalizeManifest returns. */
  ghost predicate Normal(m: Manifest) { EdgeOk(m.edge) && forall s :: s in m.services ==> NormalOne(s) }

  lemma NormalServicesAreNormal(services: seq<Service>)
    requires ServicesOk(services)
    ensures forall s :: s in Sort(Map(services, NormalService), ServiceBefore) ==> NormalOne(s)
  {
    var r := Sort(Map(services, NormalService), ServiceBefore);
    ServicesAreFixed(services);
    forall s | s in r ensures NormalOne(s) {
      var i :| 0 <= i < |r| && r[i] == s;
      assert Map(r, NormalService)[i] == NormalService(s);
    }
  }

  lemma NormalFormIsNormal(m: Manifest)
    requires Accepted(m)
    ensures Normal(NormalForm(m)) && TransportOk(NormalForm(m).transport)
  {
    NormalServicesAreNormal(m.services);
    FormIsAccepted(m);
  }

  lemma FormIsAccepted(m: Manifest)
    requires Accepted(m)
    ensures Accepted(NormalForm(m)) && NormalForm(NormalForm(m)) == NormalForm(m)
  {
    NormalizeIsIdempotent(m);
    assert Normalize(m) == Some(NormalForm(m));
    assert Normalize(NormalForm(m)).Some?;
  }

  lemma SpecIsInjective(m: Manifest, k: Manifest)
    requires Normal(m) && Normal(k)
    requires Same(Object(SPEC_KEYS, SpecFields(m)), Object(SPEC_KEYS, SpecFields(k)))
    ensures m.edge == k.edge && m.transport == k.transport && m.services == k.services
  {
    ManifestKeysDiffer();
    var x, y := SpecFields(m), SpecFields(k);
    SameObjects(SPEC_KEYS, x, y);
    assert SameField(x[0], y[0]) && SameField(x[1], y[1]) && SameField(x[2], y[2]);
    EdgeIsInjective(m.edge, k.edge);
    TransportIsInjective(m.transport, k.transport);
    forall a, b | a in m.services && b in k.services && Same(ServiceValue(a), ServiceValue(b)) ensures a == b {
      ServiceValueIsInjective(a, b);
    }
    ListIsInjective(m.services, k.services, ServiceValue);
  }

  lemma NameIsInjective(a: string, b: string)
    requires Same(Object(METADATA_KEYS, [Some(String(a))]), Object(METADATA_KEYS, [Some(String(b))]))
    ensures a == b
  {
    ManifestKeysDiffer();
    SameObjects(METADATA_KEYS, [Some(String(a))], [Some(String(b))]);
    SameString([Some(String(a))], [Some(String(b))], 0, a, b);
  }

  /** The same manifest values have the same parts. */
  lemma SameManifestFields(m: Manifest, k: Manifest)
    requires Same(ManifestValue(m), ManifestValue(k))
    ensures m.apiVersion == k.apiVersion && m.kind == k.kind
    ensures Same(Object(METADATA_KEYS, [Some(String(m.name))]), Object(METADATA_KEYS, [Some(String(k.name))]))
    ensures Same(Object(SPEC_KEYS, SpecFields(m)), Object(SPEC_KEYS, SpecFields(k)))
  {
    ManifestKeysDiffer();
    var x, y := ManifestFields(m), ManifestFields(k);
    SameObjects(MANIFEST_KEYS, x, y);
    SameString(x, y, 0, m.apiVersion, k.apiVersion);
    SameString(x, y, 1, m.kind, k.kind);
    assert SameField(x[2], y[2]) && SameField(x[3], y[3]);
  }

  lemma ManifestValueIsInjective(m: Manifest, k: Manifest)
    requires Normal(m) && Normal(k) && Same(ManifestValue(m), ManifestValue(k))
    ensures m == k
  {
    SameManifestFields(m, k);
    NameIsInjective(m.name, k.name);
    SpecIsInjective(m, k);
  }

  // ----- the values are JSON

  lemma ThreeValid(a: Value, b: Value, c: Value)
    requires Valid(a) && Valid(b) && Valid(c)
    ensures AllValid([Some(a), Some(b), Some(c)])
  {
  }

  lemma SevenValid(
    a: Option<Value>, b: Option<Value>, c: Option<Value>, d: Option<Value>, e: Option<Value>, f: Option<Value>,
    g: Option<Value>)
    requires ValidField(a) && ValidField(b) && ValidField(c) && ValidField(d) && ValidField(e) && ValidField(f)
    requires ValidField(g)
    ensures AllValid([a, b, c, d, e, f, g])
  {
  }

  lemma RouteValueIsValid(r: Route)
    ensures Valid(RouteValue(r))
  {
    ServiceKeysDiffer();
    ListIsValid(r.methods, String);
    ObjectIsValid(ROUTE_KEYS, RouteFields(r));
  }

  lemma PublicIsValid(s: Service)
    requires ServiceFieldsOk(NormalService(s)) && NormalService(s) == s
    ensures Valid(Object(PUBLIC_KEYS, PublicFields(s)))
  {
    ServiceKeysDiffer();
    forall r | r in s.routes ensures Valid(RouteValue(r)) { RouteValueIsValid(r); }
    ListIsValid(s.routes, RouteValue);
    ObjectIsValid(PUBLIC_KEYS, PublicFields(s));
  }

  lemma AddressesAreValid(s: Service)
    ensures Valid(Object(UPSTREAM_KEYS, [Url(s.upstream)])) && Valid(Object(WORKER_KEYS, WorkerFields(s)))
  {
    ServiceKeysDiffer();
    ObjectIsValid(UPSTREAM_KEYS, [Url(s.upstream)]);
    ObjectIsValid(WORKER_KEYS, WorkerFields(s));
  }

  lemma ServiceFieldsAreValid(s: Service)
    requires Valid(Object(UPSTREAM_KEYS, [Url(s.upstream)])) && Valid(Object(WORKER_KEYS, WorkerFields(s)))
    requires Valid(Object(PUBLIC_KEYS, PublicFields(s))) && Valid(Strings(s.domains))
    ensures AllValid(ServiceFields(s))
  {
    SevenValid(Some(String(s.id)), Some(Strings(s.domains)), Some(Object(UPSTREAM_KEYS, [Url(s.upstream)])),
               Some(Object(WORKER_KEYS, WorkerFields(s))), Some(Object(PUBLIC_KEYS, PublicFields(s))),
               TextField(s.exposure), TextField(s.profile));
  }

  lemma ServiceValueIsValid(s: Service)
    requires NormalOne(s)
    ensures Valid(ServiceValue(s))
  {
    PublicIsValid(s);
    AddressesAreValid(s);
    ListIsValid(s.domains, String);
    ServiceFieldsAreValid(s);
    ServiceKeysDiffer();
    ObjectIsValid(SERVICE_KEYS, ServiceFields(s));
  }

  lemma EdgeIsValid(e: Edge)
    requires EdgeOk(e)
    ensures Valid(Object(EDGE_KEYS, EdgeFields(e)))
  {
    EdgeKeysDiffer();
    forall p | p in Listed(e.privateListeners) ensures Valid(ListenerValue(p)) { ObjectIsValid(LISTENER_KEYS, ListenerFields(p)); }
    forall s | s in Listed(e.existingSites) ensures Valid(SiteValue(s)) { ObjectIsValid(SITE_KEYS, SiteFields(s)); }
    ListIsValid(Listed(e.privateListeners), ListenerValue);
    ListIsValid(Listed(e.existingSites), SiteValue);
    ObjectIsValid(EDGE_KEYS, EdgeFields(e));
  }

  lemma TransportIsValid(t: Transport)
    requires TransportOk(t)
    ensures Valid(Object(TRANSPORT_KEYS, TransportFields(t)))
  {
    ManifestKeysDiffer();
    ObjectIsValid(TRANSPORT_KEYS, TransportFields(t));
  }

  lemma ServicesAreValid(services: seq<Service>)
    requires forall s :: s in services ==> NormalOne(s)
    ensures Valid(List(services, ServiceValue))
  {
    forall s | s in services ensures Valid(ServiceValue(s)) { ServiceValueIsValid(s); }
    ListIsValid(services, ServiceValue);
  }

  lemma SpecIsValid(m: Manifest)
    requires Normal(m) && TransportOk(m.transport)
    ensures Valid(Object(SPEC_KEYS, SpecFields(m)))
  {
    EdgeIsValid(m.edge);
    TransportIsValid(m.transport);
    ServicesAreValid(m.services);
    ManifestKeysDiffer();
    ThreeValid(Object(EDGE_KEYS, EdgeFields(m.edge)), Object(TRANSPORT_KEYS, TransportFields(m.transport)),
               List(m.services, ServiceValue));
    ObjectIsValid(SPEC_KEYS, SpecFields(m));
  }

  lemma ManifestValueIsValid(m: Manifest)
    requires Normal(m) && TransportOk(m.transport)
    ensures Valid(ManifestValue(m))
  {
    SpecIsValid(m);
    ManifestKeysDiffer();
    ObjectIsValid(METADATA_KEYS, [Some(String(m.name))]);
    ObjectIsValid(MANIFEST_KEYS, ManifestFields(m));
  }

  // ----- the digest

  /** manifestDigest: it fails when normalisation does. */
  function Digest(m: Manifest): Option<Text> {
    if Accepted(m) then Some(Stable(ManifestValue(NormalForm(m)))) else None
  }

  /** Two accepted manifests have the same digest exactly when they have the same normal form. */
  lemma DigestDecidesNormalForm(m: Manifest, k: Manifest)
    requires Accepted(m) && Accepted(k)
    ensures Digest(m) == Digest(k) <==> Normalize(m) == Normalize(k)
  {
    NormalFormIsNormal(m);
    NormalFormIsNormal(k);
    var a, b := NormalForm(m), NormalForm(k);
    ManifestValueIsValid(a);
    ManifestValueIsValid(b);
    PrintsAlikeIffSame(ManifestValue(a), ManifestValue(b));
    if Same(ManifestValue(a), ManifestValue(b)) { ManifestValueIsInjective(a, b); }
  }

  /** Reordering and normalising leave the digest alone. */
  lemma DigestIsStable(m: Manifest, k: Manifest)
    requires ManifestAlike(m, k)
    ensures Digest(k) == Digest(m)
    ensures Accepted(m) ==> Digest(NormalForm(m)) == Digest(m)
  {
    ReorderingChangesNothing(m, k);
    assert Accepted(m) <==> Normalize(m).Some?;
    if Accepted(m) { FormIsAccepted(m); }
  }
}

/** `normalizeManifest` (src/config.js) as a specification. */
module Manifests {
  import opened Results
  import opened Texts
  import opened Sorting
  import opened Reordering
  import opened ManifestScalars
  import opened ManifestParts

  datatype Manifest = Manifest(
    apiVersion: string, kind: string, name: string, edge: Edge, transport: Transport, services: seq<Service>)

  const API_VERSION := "lazyedge.lazying.art/v1alpha1"
  const MANIFEST_KIND := "EdgeProject"

  // ----- claims of services

  predicate SharesClaim(a: Service, b: Service) {
    && (exists d :: d in a.domains && d in b.domains)
    && (exists r, q :: r in a.routes && q in b.routes && !Unclaimed(r, q))
  }

  predicate Compatible(a: Service, b: Service) {
    a.id != b.id && a.listen != b.listen && a.upstream != b.upstream && !SharesClaim(a, b)
  }

  predicate ServiceBefore(a: Service, b: Service) { Before(a.id, b.id) }

  predicate ServicesOk(services: seq<Service>) {
    && 1 <= |services| <= 128
    && (forall s :: s in services ==> ServiceOk(s))
    && Pairwise(Map(services, NormalService), Compatible)
  }

  // ----- claims across the parts, on normal forms

  /** The service that the compatibility listener serves. */
  function Selected(e: Edge, services: seq<Service>): Option<string> {
    if e.compatibilityService.Some? then e.compatibilityService
    else if |services| == 1 then Some(services[0].id)
    else None
  }

  predicate Serves(services: seq<Service>, id: string, exposed: bool) {
    exists s :: s in services && s.id == id && IsPrivate(s) != exposed
  }

  predicate CompatibilityOk(e: Edge, services: seq<Service>) {
    if e.compatibilityListen.None? then e.compatibilityService.None?
    else Selected(e, services).Some? && Serves(services, Selected(e, services).value, true)
  }

  predicate PrivateOk(listeners: seq<PrivateListener>, services: seq<Service>) {
    && (forall p :: p in listeners ==> Serves(services, p.service, false))
    && (forall s :: s in services && IsPrivate(s) ==> exists p :: p in listeners && p.service == s.id)
  }

  predicate SitesApart(sites: seq<Site>, services: seq<Service>) {
    forall t, s :: t in sites && s in services ==> t.host !in s.domains
  }

  function OptionalPort(a: Option<Address>): seq<int> { if a.Some? then [a.value.port] else [] }

  function ListenPort(p: PrivateListener): int { p.listen.port }

  function UpstreamPort(s: Service): int { s.upstream.port }

  /** The edge ports in the order in which they are claimed. */
  function EdgePorts(e: Edge, t: Transport, services: seq<Service>): seq<int> {
    [e.gatewayListen.port] + OptionalPort(e.compatibilityListen) + Map(Listed(e.privateListeners), ListenPort)
    + [Default(e.httpPort, DEFAULT_HTTP_PORT), Default(e.httpsPort, DEFAULT_HTTPS_PORT), Default(t.sshPort, DEFAULT_SSH_PORT)]
    + Map(services, UpstreamPort)
  }

  predicate PortsOk(e: Edge, t: Transport, services: seq<Service>) {
    && Pairwise(EdgePorts(e, t, services), Differ)
    && (forall site :: site in Listed(e.existingSites) ==> site.upstream.port !in EdgePorts(e, t, services))
    && (forall a, b :: a in services && b in services ==> a.target.port != b.listen.port)
  }

  // ----- the whole

  predicate HeadOk(m: Manifest) {
    m.apiVersion == API_VERSION && m.kind == MANIFEST_KIND && IsName(m.name)
  }

  predicate Accepted(m: Manifest) {
    && HeadOk(m) && ServicesOk(m.services) && EdgeOk(m.edge) && TransportOk(m.transport)
    && Linked(NormalEdge(m.edge), m.transport, Map(m.services, NormalService))
  }

  predicate Linked(e: Edge, t: Transport, services: seq<Service>) {
    && CompatibilityOk(e, services)
    && PrivateOk(Listed(e.privateListeners), services)
    && SitesApart(Listed(e.existingSites), services)
    && PortsOk(e, t, services)
  }

  function NormalForm(m: Manifest): Manifest {
    var services := Map(m.services, NormalService);
    var e := NormalEdge(m.edge);
    m.(
      edge := if e.compatibilityListen.Some? then e.(compatibilityService := Selected(e, services)) else e,
      transport := NormalTransport(m.transport),
      services := Sort(services, ServiceBefore))
  }

  /** normalizeManifest */
  function Normalize(m: Manifest): Option<Manifest> { if Accepted(m) then Some(NormalForm(m)) else None }
}

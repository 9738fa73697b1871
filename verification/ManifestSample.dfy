/** A small manifest that normalizeManifest accepts: the premises of the manifest and
    policy theorems can be met. */
module ManifestSample {
  import opened Results
  import opened Texts
  import opened Sorting
  import opened Reordering
  import opened RequestPath
  import RequestPathSafety
  import opened ManifestScalars
  import opened ManifestParts
  import opened Manifests

  const ROUTE := Route("/", ["GET"])

  const SERVICE := Service(
    "api", None, None, ["a.b"], Address(LOOPBACK, 18080), Address(LOOPBACK, 9000), Address(LOOPBACK, 9001), None,
    "clients", [ROUTE], None, None, None, None)

  const EDGE := Edge(Address(LOOPBACK, 8080), None, None, None, None, None, None)

  const TRANSPORT := Transport("openssh-reverse", Some("host"), "relay", None, None)

  const SAMPLE := Manifest(API_VERSION, MANIFEST_KIND, "edge", EDGE, TRANSPORT, [SERVICE])

  lemma DomainIsFine()
    ensures DomainOk("a.b") && Lower("a.b") == "a.b" && SshHostOk("host")
  {
    assert Lower("a.b") == "a.b" && Lower("host") == "host";
    assert forall k :: 0 <= k < 3 ==> !NumberFrom("a.b", k) by {
      assert !IsDigit("a.b"[2]);
    }
    assert "a.b"[1] == '.';
  }

  lemma RouteIsFine()
    ensures RouteOk(ROUTE, None) && SortedRoute(ROUTE) == ROUTE
  {
    RequestPathSafety.RoutePathExactly("/");
  }

  lemma ServiceIsFine()
    ensures ServiceOk(SERVICE)
  {
    DomainIsFine();
    RouteIsFine();
    assert Map(SERVICE.domains, Lower) == ["a.b"];
    assert Map(SERVICE.routes, SortedRoute) == [ROUTE];
  }

  /** The sample is accepted. */
  lemma SampleIsAccepted()
    ensures Accepted(SAMPLE)
  {
    ServiceIsFine();
    DomainIsFine();
    var services := Map(SAMPLE.services, NormalService);
    assert services == [NormalService(SERVICE)];
    assert EdgePorts(NormalEdge(EDGE), TRANSPORT, services) == [8080, 10_080, 10_443, 22, 18080];
  }
}

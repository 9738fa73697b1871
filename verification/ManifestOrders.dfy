/** The comparators of the manifest sorts are strict orders, and the uniqueness checks
    make them tell all elements apart. */
module ManifestOrders {
  import opened Results
  import opened Texts
  import opened Sorting
  import opened Reordering
  import opened ManifestScalars
  import opened ManifestParts
  import opened Manifests

  lemma TextOrder()
    ensures StrictOrder(Before)
  {
    forall a ensures !Before(a, a) { BeforeIsIrreflexive(a); }
    forall a, b, c | Before(a, b) && Before(b, c) ensures Before(a, c) { BeforeIsTransitive(a, b, c); }
  }

  lemma NameOrders()
    ensures StrictOrder(ListenerBefore) && StrictOrder(SiteBefore) && StrictOrder(ServiceBefore)
  {
    TextOrder();
  }

  lemma RouteOrder()
    ensures StrictOrder(RouteBefore)
  {
    TextOrder();
  }

  lemma TextsSeparated(s: seq<string>)
    requires Pairwise(s, Differ)
    ensures Separated(s, Before)
  {
    forall i, j | 0 <= i < j < |s| ensures Before(s[i], s[j]) || Before(s[j], s[i]) {
      assert Differ(s[i], s[j]);
      BeforeIsTotal(s[i], s[j]);
    }
  }

  lemma ListenersSeparated(s: seq<PrivateListener>)
    requires Pairwise(s, ListenersDiffer)
    ensures Separated(s, ListenerBefore)
  {
    forall i, j | 0 <= i < j < |s| ensures ListenerBefore(s[i], s[j]) || ListenerBefore(s[j], s[i]) {
      assert ListenersDiffer(s[i], s[j]);
      BeforeIsTotal(s[i].service, s[j].service);
    }
  }

  lemma SitesSeparated(s: seq<Site>)
    requires Pairwise(s, HostsDiffer)
    ensures Separated(s, SiteBefore)
  {
    forall i, j | 0 <= i < j < |s| ensures SiteBefore(s[i], s[j]) || SiteBefore(s[j], s[i]) {
      assert HostsDiffer(s[i], s[j]);
      BeforeIsTotal(s[i].host, s[j].host);
    }
  }

  lemma ServicesSeparated(s: seq<Service>)
    requires Pairwise(s, Compatible)
    ensures Separated(s, ServiceBefore)
  {
    forall i, j | 0 <= i < j < |s| ensures ServiceBefore(s[i], s[j]) || ServiceBefore(s[j], s[i]) {
      assert Compatible(s[i], s[j]);
      BeforeIsTotal(s[i].id, s[j].id);
    }
  }

  /** The joined text of a list of comma-free words determines its first word. */
  lemma JoinShowsFirst(a: seq<string>, b: seq<string>)
    requires a != [] && b != [] && ',' !in a[0] && ',' !in b[0] && Join(a) == Join(b)
    ensures a[0] == b[0]
  {
    JoinStarts(a);
    JoinStarts(b);
    assert |a[0]| == |b[0]|;
    assert a[0] == Join(a)[..|a[0]|] && b[0] == Join(b)[..|b[0]|];
  }

  lemma JoinStarts(a: seq<string>)
    requires a != [] && ',' !in a[0]
    ensures a[0] <= Join(a) && (|Join(a)| > |a[0]| ==> Join(a)[|a[0]|] == ',')
    ensures forall i :: 0 <= i < |a[0]| ==> Join(a)[i] != ','
  {
  }

  ghost predicate ProperRoute(r: Route) { r.methods != [] && forall verb :: verb in r.methods ==> verb in METHODS }

  lemma RoutesSeparated(s: seq<Route>)
    requires Pairwise(s, Unclaimed) && forall r :: r in s ==> ProperRoute(r)
    ensures Separated(s, RouteBefore)
  {
    forall i, j | 0 <= i < j < |s| ensures RouteBefore(s[i], s[j]) || RouteBefore(s[j], s[i]) {
      assert Unclaimed(s[i], s[j]) && ProperRoute(s[i]) && ProperRoute(s[j]);
      RoutesDiffer(s[i], s[j]);
    }
  }

  lemma RoutesDiffer(a: Route, b: Route)
    requires Unclaimed(a, b) && ProperRoute(a) && ProperRoute(b)
    ensures RouteBefore(a, b) || RouteBefore(b, a)
  {
    BeforeIsTotal(a.path, b.path);
    BeforeIsTotal(Join(a.methods), Join(b.methods));
    assert a.methods[0] in a.methods && b.methods[0] in b.methods;
    if Join(a.methods) == Join(b.methods) { JoinShowsFirst(a.methods, b.methods); }
  }

  lemma SymmetricChecks()
    ensures Symmetric(Compatible) && Symmetric(Unclaimed) && Symmetric(HostsDiffer) && Symmetric(ListenersDiffer)
  {
  }
}

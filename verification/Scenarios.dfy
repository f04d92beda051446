/** Concrete runs of the model: the gateway's own backend list, and the
    merge of missing URLs into a running resource's snapshot. */
module Scenarios {
  import opened Wrappers
  import opened Text
  import opened YarpConfig
  import opened YarpExtensions
  import opened ReverseProxyAnnotations
  import opened ReverseProxyWatcher

  /** The gateway's backend list: the API service under `api` and the web
      front end under `web`. */
  function GatewayBackends(): seq<ReverseProxyConfig>
  {
    [Create("apiService", "api"), Create("webFrontend", "web")]
  }

  /** One route and one cluster per backend, joined by cluster id. */
  lemma GatewayShape()
    ensures var r := LoadFromReverseProxyMemory(GatewayBackends());
            && |r.routes| == 2 && |r.clusters| == 2
            && r.routes[0].clusterId == r.clusters[0].clusterId
            && r.routes[1].clusterId == r.clusters[1].clusterId
  {
  }

  /** The identifiers of the API service's records. */
  lemma GatewayApiIds()
    ensures var r := LoadFromReverseProxyMemory(GatewayBackends());
            && r.routes[0].routeId == "route-apiService"
            && r.routes[0].clusterId == "cluster-apiService"
  {
    var c := GatewayBackends()[0];
    assert c.clientName == "apiService";
    assert RouteName(c) == RoutePrefix + "apiService" == "route-apiService";
    assert ClusterName(c) == ClusterPrefix + "apiService" == "cluster-apiService";
  }

  /** The routes match `api/{**catchall}` and `web/{**catchall}`: no leading slash is added. */
  lemma GatewayMatchPaths()
    ensures var r := LoadFromReverseProxyMemory(GatewayBackends());
            && r.routes[0].routeMatch.path == "api/{**catchall}"
            && r.routes[1].routeMatch.path == "web/{**catchall}"
  {
    var configs := GatewayBackends();
    assert configs[0].path == "api" && configs[1].path == "web";
    MatchPathUntrimmed(configs[0]);
    MatchPathUntrimmed(configs[1]);
    assert "api" + CatchAll == "api/{**catchall}";
    assert "web" + CatchAll == "web/{**catchall}";
  }

  /** The web front end's cluster forwards to `http://webFrontend` under destination `dest-webFrontend`. */
  lemma GatewayWebDestination()
    ensures var r := LoadFromReverseProxyMemory(GatewayBackends());
            r.clusters[1].destinations == map["dest-webFrontend" := DestinationConfig("http://webFrontend")]
  {
    var c := Create("webFrontend", "web");
    assert GatewayBackends()[1] == c;
    assert c.backendUrl == HttpScheme + "webFrontend" == "http://webFrontend";
    assert DestinationName(c) == DestinationPrefix + "webFrontend" == "dest-webFrontend";
    assert Cluster(c).destinations == map[DestinationName(c) := DestinationConfig(c.backendUrl)];
  }

  function ProxyA(): ProxyEndpoint { ProxyEndpoint("a", "https://a.proxy") }
  function ProxyB(): ProxyEndpoint { ProxyEndpoint("b", "https://b.proxy") }
  function ProxyC(): ProxyEndpoint { ProxyEndpoint("c", "https://c.proxy") }

  /** A snapshot already publishing `a`, on a running resource annotated
      with `a`, `b` and `c`, is updated to `[a, b, c]`: the existing URL is
      kept first and is not duplicated. */
  lemma MergeMissingUrls(a: UrlSnapshot)
    requires a.name == "a"
    ensures Step(Some(Running), [ReverseProxy(ProxyA()), ReverseProxy(ProxyB()), ReverseProxy(ProxyC())], [a])
            == Some([a, UrlSnapshot("b", "https://b.proxy", false), UrlSnapshot("c", "https://c.proxy", false)])
  {
    var anns := [ReverseProxy(ProxyA()), ReverseProxy(ProxyB()), ReverseProxy(ProxyC())];
    MergeEndpoints();
    MergeAdditions(a);
    var toAdd := UrlsToAdd(ProxyEndpoints(anns), [a]);
    assert toAdd == [ToUrlSnapshot(ProxyB()), ToUrlSnapshot(ProxyC())];
    assert SomeEndpointUnpublished(anns, [a]) by {
      assert anns[1].ReverseProxy? && !HasUrlNamed([a], anns[1].endpoint.name);
    }
    var r := Step(Some(Running), anns, [a]).value;
    assert r == r[..1] + r[1..] == [a] + toAdd;
    assert ToUrlSnapshot(ProxyB()) == UrlSnapshot("b", "https://b.proxy", false);
    assert ToUrlSnapshot(ProxyC()) == UrlSnapshot("c", "https://c.proxy", false);
    assert [a] + toAdd == [a, UrlSnapshot("b", "https://b.proxy", false), UrlSnapshot("c", "https://c.proxy", false)];
    assert Step(Some(Running), anns, [a]) == Some(r);
  }

  lemma MergeEndpoints()
    ensures ProxyEndpoints([ReverseProxy(ProxyA()), ReverseProxy(ProxyB()), ReverseProxy(ProxyC())])
            == [ProxyA(), ProxyB(), ProxyC()]
  {
    var anns := [ReverseProxy(ProxyA()), ReverseProxy(ProxyB()), ReverseProxy(ProxyC())];
    assert anns[1..][1..] == [ReverseProxy(ProxyC())];
    assert ProxyEndpoints(anns[1..][1..]) == [ProxyC()];
    assert ProxyEndpoints(anns[1..]) == [ProxyB(), ProxyC()];
  }

  lemma MergeAdditions(a: UrlSnapshot)
    requires a.name == "a"
    ensures UrlsToAdd([ProxyA(), ProxyB(), ProxyC()], [a]) == [ToUrlSnapshot(ProxyB()), ToUrlSnapshot(ProxyC())]
  {
    var eps := [ProxyA(), ProxyB(), ProxyC()];
    LetterUrls(a);
    assert eps[1..][1..] == [ProxyC()];
    assert UrlsToAdd(eps[1..][1..], [a]) == [ToUrlSnapshot(ProxyC())];
    assert UrlsToAdd(eps[1..], [a]) == [ToUrlSnapshot(ProxyB()), ToUrlSnapshot(ProxyC())];
  }

  /** Which single-letter names a snapshot publishing only `a` carries. */
  lemma LetterUrls(a: UrlSnapshot)
    requires a.name == "a"
    ensures HasUrlNamed([a], "a") && !HasUrlNamed([a], "b") && !HasUrlNamed([a], "c")
  {
    assert Fold("a") == ['a'];
    assert Fold("b") == ['b'];
    assert Fold("c") == ['c'];
    assert EqualsIgnoreCase([a][0].name, "a");
  }

  /** A resource that is not running is never updated, whatever it lacks. */
  lemma StartingResourceIgnored()
    ensures Step(Some(ResourceState("Starting", None)), [ReverseProxy(ProxyEndpoint("app-dev", "https://app-dev.myapp.com"))], []).None?
  {
  }
}

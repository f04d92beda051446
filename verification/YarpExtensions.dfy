/** `LoadFromReverseProxyMemory`: the list of backend descriptors becomes two
    parallel lists, routes and clusters, that the proxy engine loads. */
module YarpExtensions {
  import opened Wrappers
  import opened YarpConfig

  /** The pair of lists handed to the proxy engine. */
  datatype ProxyConfig = ProxyConfig(routes: seq<RouteConfig>, clusters: seq<ClusterConfig>)

  /** `configs.Select(YarpConfig.Route)`. */
  function Routes(configs: seq<ReverseProxyConfig>): (routes: seq<RouteConfig>)
    ensures |routes| == |configs|
    ensures forall i :: 0 <= i < |configs| ==> routes[i] == Route(configs[i])
  {
    seq(|configs|, i requires 0 <= i < |configs| => Route(configs[i]))
  }

  /** `configs.Select(YarpConfig.Cluster)`. */
  function Clusters(configs: seq<ReverseProxyConfig>): (clusters: seq<ClusterConfig>)
    ensures |clusters| == |configs|
    ensures forall i :: 0 <= i < |configs| ==> clusters[i] == Cluster(configs[i])
  {
    seq(|configs|, i requires 0 <= i < |configs| => Cluster(configs[i]))
  }

  /** One route and one cluster per descriptor, in input order, and the route
      at each position forwards to the cluster at the same position. */
  function LoadFromReverseProxyMemory(configs: seq<ReverseProxyConfig>): (r: ProxyConfig)
    ensures |r.routes| == |configs| && |r.clusters| == |configs|
    ensures forall i :: 0 <= i < |configs| ==> r.routes[i] == Route(configs[i]) && r.clusters[i] == Cluster(configs[i])
    ensures forall i :: 0 <= i < |configs| ==>
              r.routes[i].routeId == RouteName(configs[i]) && r.clusters[i].clusterId == ClusterName(configs[i])
    ensures forall i :: 0 <= i < |configs| ==> r.routes[i].clusterId == r.clusters[i].clusterId
  {
    ProxyConfig(Routes(configs), Clusters(configs))
  }

  predicate DistinctClientNames(configs: seq<ReverseProxyConfig>)
  {
    forall i, j :: 0 <= i < j < |configs| ==> configs[i].clientName != configs[j].clientName
  }

  predicate DistinctRouteIds(routes: seq<RouteConfig>)
  {
    forall i, j :: 0 <= i < j < |routes| ==> routes[i].routeId != routes[j].routeId
  }

  predicate DistinctClusterIds(clusters: seq<ClusterConfig>)
  {
    forall i, j :: 0 <= i < j < |clusters| ==> clusters[i].clusterId != clusters[j].clusterId
  }

  /** Route ids, and likewise cluster ids, are pairwise distinct exactly when
      the client names are. */
  lemma DistinctIdsIffDistinctClients(configs: seq<ReverseProxyConfig>)
    ensures DistinctClientNames(configs) <==> DistinctRouteIds(LoadFromReverseProxyMemory(configs).routes)
    ensures DistinctClientNames(configs) <==> DistinctClusterIds(LoadFromReverseProxyMemory(configs).clusters)
  {
    var r := LoadFromReverseProxyMemory(configs);
    forall i, j | 0 <= i < j < |configs|
      ensures configs[i].clientName == configs[j].clientName <==> r.routes[i].routeId == r.routes[j].routeId
      ensures configs[i].clientName == configs[j].clientName <==> r.clusters[i].clusterId == r.clusters[j].clusterId
    {
      NamesInjective(configs[i], configs[j]);
    }
  }

  /** The first cluster in `clusters` with the given id, as the engine looks a
      route's cluster up. */
  function FindCluster(clusters: seq<ClusterConfig>, id: string): (r: Option<ClusterConfig>)
    ensures r.None? <==> forall k :: 0 <= k < |clusters| ==> clusters[k].clusterId != id
    ensures r.Some? ==> exists k :: 0 <= k < |clusters| && clusters[k] == r.value && r.value.clusterId == id
  {
    if |clusters| == 0 then None
    else if clusters[0].clusterId == id then Some(clusters[0])
    else FindCluster(clusters[1..], id)
  }

  /** With distinct cluster ids, looking up an id held at position `i` finds that cluster. */
  lemma {:induction false} FindClusterAt(clusters: seq<ClusterConfig>, i: nat)
    requires i < |clusters|
    requires DistinctClusterIds(clusters)
    ensures FindCluster(clusters, clusters[i].clusterId) == Some(clusters[i])
  {
    if i > 0 {
      assert clusters[0].clusterId != clusters[i].clusterId;
      assert clusters[1..][i - 1] == clusters[i];
      FindClusterAt(clusters[1..], i - 1);
    }
  }

  /** End to end: when client names are distinct, the cluster that route `i`
      names is the one built from descriptor `i`, and its only destination
      address is that descriptor's backend. */
  lemma RouteForwardsToOwnBackend(configs: seq<ReverseProxyConfig>, i: nat)
    requires i < |configs|
    requires DistinctClientNames(configs)
    ensures var r := LoadFromReverseProxyMemory(configs);
            var found := FindCluster(r.clusters, r.routes[i].clusterId);
            && found.Some?
            && found.value.destinations.Keys == {DestinationName(configs[i])}
            && found.value.destinations.Values == {DestinationConfig(configs[i].backendUrl)}
  {
    var r := LoadFromReverseProxyMemory(configs);
    DistinctIdsIffDistinctClients(configs);
    FindClusterAt(r.clusters, i);
    assert r.clusters[i] == Cluster(configs[i]);
  }
}

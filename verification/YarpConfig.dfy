/** The gateway's reverse-proxy records: a logical backend descriptor
    (`ReverseProxyConfig`) and the YARP route and cluster synthesised from it. */
module YarpConfig {
  import opened Text

  /** Key of the YARP transform that strips a path prefix before forwarding. */
  const PathRemovePrefix: string := "PathRemovePrefix"

  /** Catch-all pattern appended to a route's path prefix. */
  const CatchAll: string := "/{**catchall}"

  /** Scheme prefixed to a client name to form its service-discovery address. */
  const HttpScheme: string := "http://"

  const RoutePrefix: string := "route-"
  const ClusterPrefix: string := "cluster-"
  const DestinationPrefix: string := "dest-"

  datatype ReverseProxyConfig = ReverseProxyConfig(clientName: string, backendUrl: string, path: string)

  datatype RouteMatch = RouteMatch(path: string)

  /** A YARP route; each transform is a dictionary of string keys to string values. */
  datatype RouteConfig = RouteConfig(
    routeId: string,
    clusterId: string,
    routeMatch: RouteMatch,
    transforms: seq<map<string, string>>)

  datatype DestinationConfig = DestinationConfig(address: string)

  /** A YARP cluster; destinations are keyed by destination id. */
  datatype ClusterConfig = ClusterConfig(clusterId: string, destinations: map<string, DestinationConfig>)

  /** `ReverseProxyConfig.Create`: the backend is addressed by the client's
      service-discovery name over plain HTTP. */
  function Create(clientName: string, path: string): (c: ReverseProxyConfig)
    ensures c.clientName == clientName && c.path == path
    ensures |c.backendUrl| == |HttpScheme| + |clientName|
    ensures c.backendUrl[..|HttpScheme|] == HttpScheme && c.backendUrl[|HttpScheme|..] == clientName
  {
    ReverseProxyConfig(clientName, HttpScheme + clientName, path)
  }

  /** An identifier `prefix + name`, from which `name` can be read back. */
  function Tagged(prefix: string, name: string): (id: string)
    ensures |id| == |prefix| + |name|
    ensures id[..|prefix|] == prefix && id[|prefix|..] == name
  {
    prefix + name
  }

  /** `route-<client>`, `cluster-<client>` and `dest-<client>`. */
  function RouteName(config: ReverseProxyConfig): (id: string)
    ensures id == RoutePrefix + config.clientName
  {
    Tagged(RoutePrefix, config.clientName)
  }

  function ClusterName(config: ReverseProxyConfig): (id: string)
    ensures id == ClusterPrefix + config.clientName
  {
    Tagged(ClusterPrefix, config.clientName)
  }

  function DestinationName(config: ReverseProxyConfig): (id: string)
    ensures id == DestinationPrefix + config.clientName
  {
    Tagged(DestinationPrefix, config.clientName)
  }

  /** Two tagged identifiers with the same prefix coincide exactly when their names do. */
  lemma TaggedInjective(prefix: string, a: string, b: string)
    ensures Tagged(prefix, a) == Tagged(prefix, b) <==> a == b
  {
    if Tagged(prefix, a) == Tagged(prefix, b) {
      assert a == Tagged(prefix, a)[|prefix|..];
    }
  }

  /** Each identifier scheme is injective in the client name. */
  lemma NamesInjective(a: ReverseProxyConfig, b: ReverseProxyConfig)
    ensures RouteName(a) == RouteName(b) <==> a.clientName == b.clientName
    ensures ClusterName(a) == ClusterName(b) <==> a.clientName == b.clientName
    ensures DestinationName(a) == DestinationName(b) <==> a.clientName == b.clientName
  {
    TaggedInjective(RoutePrefix, a.clientName, b.clientName);
    TaggedInjective(ClusterPrefix, a.clientName, b.clientName);
    TaggedInjective(DestinationPrefix, a.clientName, b.clientName);
  }

  /** The three identifier schemes never collide with one another, whatever the client names. */
  lemma NamespacesDisjoint(a: ReverseProxyConfig, b: ReverseProxyConfig)
    ensures RouteName(a) != ClusterName(b)
    ensures RouteName(a) != DestinationName(b)
    ensures ClusterName(a) != DestinationName(b)
  {
    assert RouteName(a)[0] == 'r';
    assert ClusterName(b)[0] == 'c';
    assert DestinationName(b)[0] == 'd';
  }

  /** The prefix stripped from a route: the configured path without trailing slashes. */
  function RoutePrefixPath(config: ReverseProxyConfig): string
  {
    TrimEnd(config.path, '/')
  }

  /** `YarpConfig.Route`. The route forwards to the cluster of the same client;
      it matches the configured path, with trailing slashes removed, followed by
      a catch-all; and it carries exactly one transform, removing that prefix. */
  function Route(config: ReverseProxyConfig): (r: RouteConfig)
    ensures r.routeId == RouteName(config) && r.clusterId == ClusterName(config)
    ensures |r.transforms| == 1 && r.transforms[0].Keys == {PathRemovePrefix}
    ensures var prefix := r.transforms[0][PathRemovePrefix];
            && r.routeMatch.path == prefix + CatchAll
            && prefix <= config.path
            && (|prefix| == 0 || prefix[|prefix| - 1] != '/')
            && AllFrom(config.path, |prefix|, '/')
  {
    var prefix := RoutePrefixPath(config);
    RouteConfig(RouteName(config), ClusterName(config), RouteMatch(prefix + CatchAll),
                [map[PathRemovePrefix := prefix]])
  }

  /** `YarpConfig.Cluster`: a single destination, keyed by the client's
      destination id, whose address is the configured backend. */
  function Cluster(config: ReverseProxyConfig): (c: ClusterConfig)
    ensures c.clusterId == ClusterName(config)
    ensures |c.destinations| == 1 && DestinationName(config) in c.destinations
    ensures c.destinations.Values == {DestinationConfig(config.backendUrl)}
  {
    var dest := map[DestinationName(config) := DestinationConfig(config.backendUrl)];
    assert dest.Keys == {DestinationName(config)};
    ClusterConfig(ClusterName(config), dest)
  }

  /** The route and the cluster built from one descriptor are joined by the same cluster id. */
  lemma RouteTargetsCluster(config: ReverseProxyConfig)
    ensures Route(config).clusterId == Cluster(config).clusterId
  {
  }

  /** The stripped prefix is the leading part of the match pattern and never ends in a slash. */
  lemma RemovedPrefixStartsMatch(config: ReverseProxyConfig)
    ensures var r := Route(config);
            var prefix := r.transforms[0][PathRemovePrefix];
            && prefix <= r.routeMatch.path
            && r.routeMatch.path[|prefix|..] == CatchAll
            && prefix == TrimEnd(config.path, '/')
  {
    var r := Route(config);
    var prefix := r.transforms[0][PathRemovePrefix];
    TrimEndUnique(config.path, '/', prefix);
    assert r.routeMatch.path == prefix + CatchAll;
  }

  /** The match pattern is determined by the path's trimmed prefix. */
  lemma MatchPathFromPrefix(config: ReverseProxyConfig, prefix: string)
    requires prefix <= config.path
    requires |prefix| == 0 || prefix[|prefix| - 1] != '/'
    requires AllFrom(config.path, |prefix|, '/')
    ensures Route(config).routeMatch.path == prefix + CatchAll
  {
    TrimEndUnique(config.path, '/', prefix);
  }

  /** A path without a trailing slash is matched as itself followed by the
      catch-all: no leading slash is added and nothing else changes. */
  lemma MatchPathUntrimmed(config: ReverseProxyConfig)
    requires |config.path| == 0 || config.path[|config.path| - 1] != '/'
    ensures Route(config).routeMatch.path == config.path + CatchAll
  {
    MatchPathFromPrefix(config, config.path);
  }

  /** No leading slash is added: `api` is matched as `api/{**catchall}`. */
  lemma MatchPathRelative()
    ensures Route(Create("apiService", "api")).routeMatch.path == "api/{**catchall}"
  {
    var c := Create("apiService", "api");
    assert c.path == "api";
    MatchPathUntrimmed(c);
    assert "api" + CatchAll == "api/{**catchall}";
  }

  /** The root path and the empty path both collapse onto the bare catch-all. */
  lemma MatchPathRoot()
    ensures Route(Create("apiService", "/")).routeMatch.path == "/{**catchall}"
    ensures Route(Create("apiService", "")).routeMatch.path == "/{**catchall}"
  {
    var root := Create("apiService", "/");
    assert root.path == "/";
    MatchPathFromPrefix(root, "");
    var empty := Create("apiService", "");
    assert empty.path == "";
    MatchPathUntrimmed(empty);
    assert "" + CatchAll == "/{**catchall}";
  }

  /** A run of trailing slashes is removed in full. */
  lemma MatchPathTrailingSlashes()
    ensures Route(Create("apiService", "/api//")).routeMatch.path == "/api/{**catchall}"
  {
    var c := Create("apiService", "/api//");
    assert c.path == "/api//";
    assert c.path[..4] == "/api";
    MatchPathFromPrefix(c, "/api");
    assert "/api" + CatchAll == "/api/{**catchall}";
  }
}

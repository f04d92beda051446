# Reverse-proxy gateway and endpoint annotations, modelled in Dafny

This project models the two pieces of logic in the CustomDomainAspire
repository that do more than wire services together:

- **Gateway configuration synthesis** (`CustomDomainAspire.Gateway`). A list of
  backend descriptors `ReverseProxyConfig(clientName, backendUrl, path)` becomes two
  parallel lists of YARP records. Each route gets the id `route-<client>`,
  points at the cluster `cluster-<client>`, matches the path with its trailing
  slashes trimmed followed by `/{**catchall}`, and carries one `PathRemovePrefix`
  transform. Each cluster has one destination, `dest-<client>`, whose address
  is the backend URL.
- **Reverse-proxy endpoint annotations** (`CustomDomainAspire.AppHost`):
  - the validating constructor of `ReverseProxyEndpointAnnotation`;
  - the case-insensitive duplicate-name check that `WithReverseProxyEndpoint`
    runs before it appends the annotation to a resource;
  - the body of the lifecycle hook's event loop. When a resource reaches the
    `Running` state, the loop appends the URLs of its reverse-proxy endpoints
    that the event's snapshot lacks, in one update.

Files and modules:

| file | module | contents |
|---|---|---|
| `Wrappers.dfy` | `Wrappers` | `Option` (a nullable reference) and `Result` (a value or a thrown exception) |
| `Text.dfy` | `Text` | ordinal case-insensitive comparison as ASCII case folding; `TrimEnd` |
| `YarpConfig.dfy` | `YarpConfig` | descriptor, route and cluster records; `Create`, `Route`, `Cluster`, identifier schemes |
| `YarpExtensions.dfy` | `YarpExtensions` | `LoadFromReverseProxyMemory` and the lemmas relating the two lists |
| `ReverseProxyAnnotations.dfy` | `ReverseProxyAnnotations` | annotation constructor, `OfType` filtering, registration and its invariants |
| `ReverseProxyWatcher.dfy` | `ReverseProxyWatcher` | one event of the watch loop as the pure function `Step`, the loop body as a method, idempotence |
| `Scenarios.dfy` | `Scenarios` | the gateway's own two backends, and a three-annotation merge |

Modelling choices:

- Two checks are the platform's, not this repository's: the endpoint-name rule
  run by constructing an `EndpointAnnotation`, and `Uri.TryCreate(url, UriKind.Absolute, _)`.
  They are the two function-valued fields of `Platform`, passed in and never
  given rules of their own.
- A null argument is an `Option` that is `None`. A thrown exception is a
  `Failure` carrying an `Error` that names the exception and its argument.
- `StringComparison.OrdinalIgnoreCase` is equality after `Fold`, which
  lower-cases ASCII letters.
- A resource's annotations are a sequence of `Endpoint(name)`,
  `ReverseProxy(endpoint)` and `Other`. `OfType<ReverseProxyEndpointAnnotation>()`
  is `ProxyEndpoints`.
- The resource state is the platform's state record `ResourceStateSnapshot(Text, Style)`,
  optional as in the snapshot. The source compares it with the string constant
  `KnownResourceStates.Running`, which converts implicitly to a record with text
  `Running` and no style. The records are compared field by field, so a running
  state that carries a style does not count as running (`ReverseProxyWatcher.StyledRunningSkipped`).
- Path `api` gives `api/{**catchall}`: no leading slash is added to the path
  (`YarpConfig.MatchPathRelative`, `Scenarios.GatewayMatchPaths`).
- The endpoint-name rule is the platform's (`Platform.validEndpointName`).
- Duplicate names are found by two scans, one over native endpoints and one
  over reverse-proxy annotations. Both scans report the same error. Each scan
  is a lookup in a set of folded names (`EndpointIndex`, `ProxyIndex`).
- One event's handling is split the way the source splits it. `PendingUrls` is
  the list of URLs to add, computed from the event's snapshot. `ApplyUpdate`
  is the transformation the publisher applies to whatever snapshot is current.
  `Step` is the two composed on the event's own snapshot.

## Model

| member | source | states |
|---|---|---|
| Text.EqualsIgnoreCaseCharwise | CustomDomainAspire.AppHost/ReverseProxyExtensions.cs:41 | Two names are equal ignoring case exactly when they have the same length and agree character by character after folding |
| Text.FoldIdempotent | CustomDomainAspire.AppHost/ReverseProxyExtensions.cs:44 | Folding a folded name changes nothing, and a name compares equal to its folded form |
| Text.TrimEnd | CustomDomainAspire.Gateway/YarpConfig.cs:25 | The trimmed path is a prefix of the path, does not end in the trimmed character, and only that character follows it |
| Text.TrimEndUnique | CustomDomainAspire.Gateway/YarpConfig.cs:25 | Those three properties determine the trimmed string: any prefix with them is the result |
| Text.TrimEndIdempotent | CustomDomainAspire.Gateway/YarpConfig.cs:29 | Trimming an already trimmed path leaves it unchanged |
| YarpConfig.Create | CustomDomainAspire.Gateway/YarpConfig.cs:74-81 | The descriptor keeps client name and path, and its backend URL is `http://` followed by the client name, which can be read back from it |
| YarpConfig.RouteName | CustomDomainAspire.Gateway/YarpConfig.cs:52-55 | The route id is `route-` followed by the client name |
| YarpConfig.ClusterName | CustomDomainAspire.Gateway/YarpConfig.cs:57-60 | The cluster id is `cluster-` followed by the client name |
| YarpConfig.DestinationName | CustomDomainAspire.Gateway/YarpConfig.cs:62-65 | The destination id is `dest-` followed by the client name |
| YarpConfig.Tagged | CustomDomainAspire.Gateway/YarpConfig.cs:52-65 | An identifier starts with its scheme prefix, and the client name can be read back after that prefix |
| YarpConfig.TaggedInjective | CustomDomainAspire.Gateway/YarpConfig.cs:52-65 | Two identifiers with the same prefix are equal exactly when their client names are |
| YarpConfig.NamesInjective | CustomDomainAspire.Gateway/YarpConfig.cs:52-65 | Route, cluster and destination ids are each injective in the client name, in both directions |
| YarpConfig.NamespacesDisjoint | CustomDomainAspire.Gateway/YarpConfig.cs:52-65 | No route id equals a cluster or destination id, and no cluster id equals a destination id, for any client names |
| YarpConfig.Route | CustomDomainAspire.Gateway/YarpConfig.cs:17-32 | The route has the route id and the cluster id of the client. It has one transform with the single key `PathRemovePrefix`. The transform value followed by `/{**catchall}` is the match path, and that value is the path minus its trailing slashes |
| YarpConfig.Cluster | CustomDomainAspire.Gateway/YarpConfig.cs:34-50 | The cluster has the client's cluster id and exactly one destination, keyed by the destination id, whose address is the backend URL |
| YarpConfig.RouteTargetsCluster | CustomDomainAspire.Gateway/YarpConfig.cs:21-38 | A route's cluster id is the id of the cluster built from the same descriptor |
| YarpConfig.RemovedPrefixStartsMatch | CustomDomainAspire.Gateway/YarpConfig.cs:23-30 | The removed prefix is `TrimEnd(path, '/')`, starts the match path, and the rest of the match path is `/{**catchall}` |
| YarpConfig.MatchPathFromPrefix | CustomDomainAspire.Gateway/YarpConfig.cs:25 | Any prefix of the path with the trimming properties, followed by the catch-all, is the match path |
| YarpConfig.MatchPathUntrimmed | CustomDomainAspire.Gateway/YarpConfig.cs:25 | A path with no trailing slash is matched as itself followed by `/{**catchall}`, with nothing added in front |
| YarpConfig.MatchPathRelative | CustomDomainAspire.Gateway/YarpConfig.cs:25 | Path `api` matches `api/{**catchall}`: no leading slash is added |
| YarpConfig.MatchPathRoot | CustomDomainAspire.Gateway/YarpConfig.cs:25 | Paths `/` and the empty path both match `/{**catchall}` |
| YarpConfig.MatchPathTrailingSlashes | CustomDomainAspire.Gateway/YarpConfig.cs:25 | Path `/api//` loses all its trailing slashes and matches `/api/{**catchall}` |
| YarpExtensions.Routes | CustomDomainAspire.Gateway/YarpExtensions.cs:7 | One route per descriptor, in order: route i is the route built from descriptor i |
| YarpExtensions.Clusters | CustomDomainAspire.Gateway/YarpExtensions.cs:8 | One cluster per descriptor, in order: cluster i is the cluster built from descriptor i |
| YarpExtensions.LoadFromReverseProxyMemory | CustomDomainAspire.Gateway/YarpExtensions.cs:7-8 | There is one route and one cluster per descriptor, so empty input gives empty lists. The route and the cluster at position i are those built from descriptor i, and they share a cluster id |
| YarpExtensions.DistinctIdsIffDistinctClients | CustomDomainAspire.Gateway/YarpExtensions.cs:7-8 | Route ids are pairwise distinct exactly when client names are, and the same holds for cluster ids |
| YarpExtensions.RouteForwardsToOwnBackend | CustomDomainAspire.Gateway/YarpExtensions.cs:7-8 | With distinct client names, looking up route i's cluster id among the clusters finds a cluster whose only destination is descriptor i's backend |
| ReverseProxyAnnotations.NewProxyEndpoint | CustomDomainAspire.AppHost/ReverseProxyExtensions.cs:14-28 | Construction succeeds exactly when the name is present and valid and the URL is present and absolute. A missing name is checked first, then an invalid name; a bad URL fails as argument `url`. On success name and URL are stored as given |
| ReverseProxyAnnotations.ProxyEndpoints | CustomDomainAspire.AppHost/ReverseProxyExtensions.cs:44 | The reverse-proxy endpoints of a resource are exactly those carried by its reverse-proxy annotations |
| ReverseProxyAnnotations.ProxyEndpointsAppend | CustomDomainAspire.AppHost/ReverseProxyExtensions.cs:74 | Filtering a concatenation gives the filtered parts in order, so annotation order is kept |
| ReverseProxyAnnotations.HasEndpointNamed | CustomDomainAspire.AppHost/ReverseProxyExtensions.cs:41 | A native endpoint has the name, ignoring case, exactly when the folded name is in the set of folded native endpoint names |
| ReverseProxyAnnotations.HasProxyEndpointNamed | CustomDomainAspire.AppHost/ReverseProxyExtensions.cs:44 | A reverse-proxy endpoint has the name, ignoring case, exactly when the folded name is in the set of folded reverse-proxy names |
| ReverseProxyAnnotations.WithReverseProxyEndpoint | CustomDomainAspire.AppHost/ReverseProxyExtensions.cs:37-49 | Registration fails as a duplicate when a native or reverse-proxy endpoint has the name ignoring case. Otherwise it fails exactly as the constructor does. On success it appends exactly the new annotation and leaves the earlier ones unchanged |
| ReverseProxyAnnotations.RegistrationKeepsNamesDistinct | CustomDomainAspire.AppHost/ReverseProxyExtensions.cs:44-48 | If the reverse-proxy names of a resource are pairwise distinct ignoring case, they still are after a successful registration |
| ReverseProxyAnnotations.RegistrationKeepsNamesApart | CustomDomainAspire.AppHost/ReverseProxyExtensions.cs:41-48 | If no reverse-proxy name clashes with a native endpoint name, none does after a successful registration |
| ReverseProxyAnnotations.RegisterTwiceFails | CustomDomainAspire.AppHost/ReverseProxyExtensions.cs:44-45 | After registering a name, registering any name equal to it ignoring case fails as a duplicate |
| ReverseProxyWatcher.HasUrlNamed | CustomDomainAspire.AppHost/ReverseProxyExtensions.cs:76 | A published URL has the name, ignoring case, exactly when the folded name is in the set of folded published names |
| ReverseProxyWatcher.ToUrlSnapshot | CustomDomainAspire.AppHost/ReverseProxyExtensions.cs:79 | The URL published for an endpoint has the endpoint's name and URL and is marked external |
| ReverseProxyWatcher.UrlsToAdd | CustomDomainAspire.AppHost/ReverseProxyExtensions.cs:72-81 | There is at most one addition per endpoint, and every addition is marked external |
| ReverseProxyWatcher.UrlsToAddMembers | CustomDomainAspire.AppHost/ReverseProxyExtensions.cs:74-81 | Every addition is the URL of an endpoint whose name no published URL carries, ignoring case, and every such endpoint has its URL among the additions |
| ReverseProxyWatcher.UrlsToAddAppend | CustomDomainAspire.AppHost/ReverseProxyExtensions.cs:74-81 | The additions follow endpoint order: those for a concatenation are the additions for each part, in order |
| ReverseProxyWatcher.CollectUrlsToAdd | CustomDomainAspire.AppHost/ReverseProxyExtensions.cs:72-81 | The builder loop over the resource's annotations collects exactly the additions of the reference definition |
| ReverseProxyWatcher.PendingUrls | CustomDomainAspire.AppHost/ReverseProxyExtensions.cs:66-83 | An update is requested exactly when the resource is running and some reverse-proxy endpoint has no URL of its name in the event's snapshot. The request carries the additions, and there is at least one |
| ReverseProxyWatcher.ApplyUpdate | CustomDomainAspire.AppHost/ReverseProxyExtensions.cs:85-88 | Applied to the current snapshot, the update keeps that snapshot's URLs first, in order, and appends the additions after them. The result holds exactly the URLs of the two lists |
| ReverseProxyWatcher.HandleEvent | CustomDomainAspire.AppHost/ReverseProxyExtensions.cs:66-83 | The loop body as written, with its early `continue` and its count test, requests exactly the update `PendingUrls` describes |
| ReverseProxyWatcher.Step | CustomDomainAspire.AppHost/ReverseProxyExtensions.cs:66-89 | When the update is applied to the event's own snapshot, it happens exactly when the resource is running and some reverse-proxy endpoint has no URL of its name. It keeps the old URLs as a prefix and appends the missing ones, so the list grows |
| ReverseProxyWatcher.StyledRunningSkipped | CustomDomainAspire.AppHost/ReverseProxyExtensions.cs:66-70 | A state with text `Running` and a style is not equal to the running constant, so no update is requested |
| ReverseProxyWatcher.StepQuietAfterUpdate | CustomDomainAspire.AppHost/ReverseProxyExtensions.cs:76-88 | Once an update is published, no snapshot that extends it triggers another update |
| ReverseProxyWatcher.StepIdempotent | CustomDomainAspire.AppHost/ReverseProxyExtensions.cs:76-83 | The step applied to its own output publishes nothing |
| ReverseProxyWatcher.UrlsToAddDistinct | CustomDomainAspire.AppHost/ReverseProxyExtensions.cs:74-81 | Endpoints with pairwise distinct names give additions with pairwise distinct names |
| ReverseProxyWatcher.StepKeepsUrlNamesDistinct | CustomDomainAspire.AppHost/ReverseProxyExtensions.cs:83-88 | Suppose reverse-proxy names and published names are each distinct. The update computed from a snapshot, applied to that same snapshot, adds no name twice ignoring case |
| ReverseProxyWatcher.StaleEventDuplicates | CustomDomainAspire.AppHost/ReverseProxyExtensions.cs:76-88 | Additions computed from an older snapshot and applied to a newer one can duplicate a URL. With one endpoint, a second running event that still carries the empty URL list appends the endpoint's URL a second time |
| Scenarios.GatewayShape | CustomDomainAspire.Gateway/Program.cs:10-13 | The gateway's two backends give two routes and two clusters, aligned by cluster id |
| Scenarios.GatewayApiIds | CustomDomainAspire.Gateway/Program.cs:11 | The API service's route is `route-apiService` and targets `cluster-apiService` |
| Scenarios.GatewayMatchPaths | CustomDomainAspire.Gateway/Program.cs:10-13 | The gateway's routes match `api/{**catchall}` and `web/{**catchall}` |
| Scenarios.GatewayWebDestination | CustomDomainAspire.Gateway/Program.cs:12 | The web front end's cluster has the single destination `dest-webFrontend` at `http://webFrontend` |
| Scenarios.MergeMissingUrls | CustomDomainAspire.AppHost/ReverseProxyExtensions.cs:72-88 | With URL `a` published and endpoints `a`, `b`, `c`, the update is `[a, b, c]`, with `a` not duplicated |
| Scenarios.StartingResourceIgnored | CustomDomainAspire.AppHost/ReverseProxyExtensions.cs:66-70 | A resource in a state other than running is not updated |

## Left out

- The lifecycle hook's plumbing is not modelled: `BeforeStartAsync`, the `await foreach` over
  `WatchAsync`, `DisposeAsync`, the cancellation token source, and the exception
  handling and logging around the background task. This is concurrency and I/O.
  Only the body of one loop iteration is modelled.
- `PublishUpdateAsync` applies its transformation to whatever snapshot is current
  when the update is published (`ApplyUpdate`). The order in which the platform
  delivers events and applies updates is not modelled.
- ReverseProxyWatcher.StepKeepsUrlNamesDistinct: covers only an update applied
  to the snapshot it was computed from. An event whose snapshot predates an
  earlier update appends a URL already present (`StaleEventDuplicates`).
- ReverseProxyWatcher.StepQuietAfterUpdate: covers only events whose snapshot
  extends an earlier update, not events queued before that update.
- `TryAddLifecycleHook`, `WithAnnotation` and `LoadFromMemory` are library calls.
  The annotation store is a sequence, and synthesis ends with the two lists it hands over.
- The endpoint-name rule and absolute-URL parsing are platform code. They are
  parameters with no rules of their own.
- Folding covers ASCII letters only. Full Unicode `OrdinalIgnoreCase` is not modelled.
- The state record's shape and its field-by-field equality are the platform's.
  Its definition is not part of this model.
- Request-time prefix stripping and route matching happen inside the proxy engine.
  Only the configuration records are modelled. `FindCluster` stands in for the
  engine's lookup of a route's cluster by id.
- Both `Program.cs` files are bootstrap code. They are used only as concrete inputs in `Scenarios`.

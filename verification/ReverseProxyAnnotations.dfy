/** The reverse-proxy endpoint annotation of the app host: its validating
    constructor and its registration on a resource. */
module ReverseProxyAnnotations {
  import opened Wrappers
  import opened Text

  /** The two checks the constructor delegates to the platform and that are
      not part of this model: the orchestrator's endpoint-name rule (run by
      constructing an `EndpointAnnotation`) and `Uri.TryCreate(_, UriKind.Absolute, _)`. */
  datatype Platform = Platform(validEndpointName: string -> bool, isAbsoluteUrl: string -> bool)

  /** `ReverseProxyEndpointAnnotation`: a named external URL alias of a resource. */
  datatype ProxyEndpoint = ProxyEndpoint(name: string, url: string)

  /** The annotations of a resource, as far as this core looks at them: native
      endpoints, reverse-proxy endpoints and anything else. */
  datatype Annotation = Endpoint(name: string) | ReverseProxy(endpoint: ProxyEndpoint) | Other

  /** The exceptions the constructor and the registration throw. */
  datatype Error =
    | ArgumentNull(paramName: string)          // ArgumentNullException
    | InvalidEndpointName(name: string)        // thrown by the endpoint-name rule
    | NotAbsoluteUrl(url: Option<string>, paramName: string)   // ArgumentException
    | DuplicateEndpointName(name: string)      // DistributedApplicationException

  /** The constructor of `ReverseProxyEndpointAnnotation`: the name must be
      present and a valid endpoint name, then the url must be absolute; the
      first failing check decides the error. */
  function NewProxyEndpoint(platform: Platform, name: Option<string>, url: Option<string>): (r: Result<ProxyEndpoint, Error>)
    ensures r.Success? <==>
              name.Some? && platform.validEndpointName(name.value) && url.Some? && platform.isAbsoluteUrl(url.value)
    ensures r.Success? ==> r.value.name == name.value && r.value.url == url.value
    ensures name.None? ==> r == Failure(ArgumentNull("name"))
    ensures name.Some? && !platform.validEndpointName(name.value) ==> r == Failure(InvalidEndpointName(name.value))
    ensures name.Some? && platform.validEndpointName(name.value) && r.Failure? ==> r == Failure(NotAbsoluteUrl(url, "url"))
  {
    match name
    case None => Failure(ArgumentNull("name"))
    case Some(n) =>
      if !platform.validEndpointName(n) then Failure(InvalidEndpointName(n))
      else match url
        case Some(u) =>
          if platform.isAbsoluteUrl(u) then Success(ProxyEndpoint(n, u)) else Failure(NotAbsoluteUrl(url, "url"))
        case None => Failure(NotAbsoluteUrl(url, "url"))
  }

  /** `Annotations.OfType<ReverseProxyEndpointAnnotation>()`, in annotation order. */
  function ProxyEndpoints(annotations: seq<Annotation>): (r: seq<ProxyEndpoint>)
    ensures |r| <= |annotations|
    ensures forall e :: e in r <==> ReverseProxy(e) in annotations
  {
    if |annotations| == 0 then []
    else (if annotations[0].ReverseProxy? then [annotations[0].endpoint] else [])
         + ProxyEndpoints(annotations[1..])
  }

  /** `OfType` distributes over concatenation, so it keeps the annotation order. */
  lemma {:induction false} ProxyEndpointsAppend(a: seq<Annotation>, b: seq<Annotation>)
    ensures ProxyEndpoints(a + b) == ProxyEndpoints(a) + ProxyEndpoints(b)
  {
    if |a| == 0 {
      assert a + b == b;
    } else {
      assert (a + b)[1..] == a[1..] + b;
      ProxyEndpointsAppend(a[1..], b);
    }
  }

  /** The folded names of the resource's native endpoints. */
  function EndpointIndex(annotations: seq<Annotation>): set<string>
  {
    set k | 0 <= k < |annotations| && annotations[k].Endpoint? :: Fold(annotations[k].name)
  }

  /** The folded names of the resource's reverse-proxy endpoints. */
  function ProxyIndex(annotations: seq<Annotation>): set<string>
  {
    set k | 0 <= k < |annotations| && annotations[k].ReverseProxy? :: Fold(annotations[k].endpoint.name)
  }

  /** Some native endpoint of the resource has `name`, ignoring case. */
  predicate HasEndpointNamed(annotations: seq<Annotation>, name: string)
    ensures HasEndpointNamed(annotations, name) <==> Fold(name) in EndpointIndex(annotations)
  {
    exists k :: 0 <= k < |annotations| && annotations[k].Endpoint? && EqualsIgnoreCase(annotations[k].name, name)
  }

  /** Some reverse-proxy endpoint of the resource has `name`, ignoring case. */
  predicate HasProxyEndpointNamed(annotations: seq<Annotation>, name: string)
    ensures HasProxyEndpointNamed(annotations, name) <==> Fold(name) in ProxyIndex(annotations)
  {
    exists k :: 0 <= k < |annotations| && annotations[k].ReverseProxy? && EqualsIgnoreCase(annotations[k].endpoint.name, name)
  }

  /** `WithReverseProxyEndpoint`: refuses a name already used, ignoring case,
      by a native endpoint or a reverse-proxy endpoint of the resource; otherwise
      constructs the annotation and appends it, leaving the others untouched. */
  function WithReverseProxyEndpoint(platform: Platform, annotations: seq<Annotation>, name: string, url: string)
    : (r: Result<seq<Annotation>, Error>)
    ensures (HasEndpointNamed(annotations, name) || HasProxyEndpointNamed(annotations, name))
              ==> r == Failure(DuplicateEndpointName(name))
    ensures r.Success? <==>
              && !HasEndpointNamed(annotations, name) && !HasProxyEndpointNamed(annotations, name)
              && platform.validEndpointName(name) && platform.isAbsoluteUrl(url)
    ensures r.Success? ==> |r.value| == |annotations| + 1 && r.value[..|annotations|] == annotations
    ensures r.Success? ==> r.value[|annotations|] == ReverseProxy(ProxyEndpoint(name, url))
    ensures (!HasEndpointNamed(annotations, name) && !HasProxyEndpointNamed(annotations, name) && r.Failure?)
              ==> r.error == NewProxyEndpoint(platform, Some(name), Some(url)).error
  {
    if HasEndpointNamed(annotations, name) then Failure(DuplicateEndpointName(name))
    else if HasProxyEndpointNamed(annotations, name) then Failure(DuplicateEndpointName(name))
    else match NewProxyEndpoint(platform, Some(name), Some(url))
      case Success(e) => Success(annotations + [ReverseProxy(e)])
      case Failure(err) => Failure(err)
  }

  /** The reverse-proxy endpoint names of a resource are pairwise distinct, ignoring case. */
  predicate ProxyNamesDistinct(annotations: seq<Annotation>)
  {
    var eps := ProxyEndpoints(annotations);
    forall i, j :: 0 <= i < j < |eps| ==> !EqualsIgnoreCase(eps[i].name, eps[j].name)
  }

  /** A reverse-proxy endpoint found by `OfType` sits at some annotation position. */
  lemma ProxyEndpointPosition(annotations: seq<Annotation>, e: ProxyEndpoint)
    requires e in ProxyEndpoints(annotations)
    ensures HasProxyEndpointNamed(annotations, e.name)
  {
    var k :| 0 <= k < |annotations| && annotations[k] == ReverseProxy(e);
    assert annotations[k].ReverseProxy? && EqualsIgnoreCase(annotations[k].endpoint.name, e.name);
  }

  /** A successful registration keeps the reverse-proxy names of the resource
      pairwise distinct, ignoring case. */
  lemma RegistrationKeepsNamesDistinct(platform: Platform, annotations: seq<Annotation>, name: string, url: string)
    requires ProxyNamesDistinct(annotations)
    ensures var r := WithReverseProxyEndpoint(platform, annotations, name, url);
            r.Success? ==> ProxyNamesDistinct(r.value)
  {
    var r := WithReverseProxyEndpoint(platform, annotations, name, url);
    if r.Success? {
      var e := ProxyEndpoint(name, url);
      assert r.value == annotations + [ReverseProxy(e)];
      ProxyEndpointsAppend(annotations, [ReverseProxy(e)]);
      assert ProxyEndpoints([ReverseProxy(e)]) == [e];
      var before := ProxyEndpoints(annotations);
      var eps := ProxyEndpoints(r.value);
      assert eps == before + [e];
      forall i | 0 <= i < |before|
        ensures !EqualsIgnoreCase(eps[i].name, e.name)
      {
        assert before[i] in before;
        ProxyEndpointPosition(annotations, before[i]);
      }
    }
  }

  /** No reverse-proxy endpoint of a resource shares its name, ignoring case,
      with a native endpoint of that resource. */
  predicate ProxyNamesApartFromEndpoints(annotations: seq<Annotation>)
  {
    forall i, j :: 0 <= i < |annotations| && 0 <= j < |annotations| && annotations[i].Endpoint?
                   && annotations[j].ReverseProxy?
                   ==> !EqualsIgnoreCase(annotations[i].name, annotations[j].endpoint.name)
  }

  /** A successful registration adds no reverse-proxy name that clashes with a native endpoint. */
  lemma RegistrationKeepsNamesApart(platform: Platform, annotations: seq<Annotation>, name: string, url: string)
    requires ProxyNamesApartFromEndpoints(annotations)
    ensures var r := WithReverseProxyEndpoint(platform, annotations, name, url);
            r.Success? ==> ProxyNamesApartFromEndpoints(r.value)
  {
    var r := WithReverseProxyEndpoint(platform, annotations, name, url);
    if r.Success? {
      var n := |annotations|;
      forall i, j | 0 <= i < |r.value| && 0 <= j < |r.value| && r.value[i].Endpoint? && r.value[j].ReverseProxy?
        ensures !EqualsIgnoreCase(r.value[i].name, r.value[j].endpoint.name)
      {
        if i < n && j < n {
          assert r.value[i] == annotations[i] && r.value[j] == annotations[j];
        } else if i < n {
          assert r.value[i] == annotations[i];
          assert r.value[j].endpoint.name == name;
        }
      }
    }
  }

  /** Registering a name that differs only in case from one just registered fails. */
  lemma RegisterTwiceFails(platform: Platform, annotations: seq<Annotation>, name: string, url: string,
                           name2: string, url2: string)
    requires EqualsIgnoreCase(name, name2)
    requires WithReverseProxyEndpoint(platform, annotations, name, url).Success?
    ensures var once := WithReverseProxyEndpoint(platform, annotations, name, url).value;
            WithReverseProxyEndpoint(platform, once, name2, url2) == Failure(DuplicateEndpointName(name2))
  {
    var once := WithReverseProxyEndpoint(platform, annotations, name, url).value;
    var k := |annotations|;
    assert once[k].ReverseProxy? && EqualsIgnoreCase(once[k].endpoint.name, name2);
  }
}

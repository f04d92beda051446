/** The body of the lifecycle hook's event loop: when a resource is running,
    the URLs of its reverse-proxy endpoints that its published snapshot lacks
    are appended to that snapshot in one update. */
module ReverseProxyWatcher {
  import opened Wrappers
  import opened Text
  import opened ReverseProxyAnnotations

  /** `ResourceStateSnapshot(Text, Style)`: the platform's record of a
      resource state, compared field by field. */
  datatype ResourceState = ResourceState(text: string, style: Option<string>)

  /** `KnownResourceStates.Running`, a string, converted implicitly to a state
      record with no style when compared with a snapshot's state. */
  const Running: ResourceState := ResourceState("Running", None)

  /** A published URL of a resource. */
  datatype UrlSnapshot = UrlSnapshot(name: string, url: string, isInternal: bool)

  /** `urls.Any(x => string.Equals(x.Name, name, StringComparison.OrdinalIgnoreCase))`. */
  predicate HasUrlNamed(urls: seq<UrlSnapshot>, name: string)
    ensures HasUrlNamed(urls, name) <==> Fold(name) in UrlIndex(urls)
  {
    exists k :: 0 <= k < |urls| && EqualsIgnoreCase(urls[k].name, name)
  }

  /** The folded names of the published URLs. */
  function UrlIndex(urls: seq<UrlSnapshot>): set<string>
  {
    set k | 0 <= k < |urls| :: Fold(urls[k].name)
  }

  /** The external URL published for a reverse-proxy endpoint. */
  function ToUrlSnapshot(e: ProxyEndpoint): (u: UrlSnapshot)
    ensures u.name == e.name && u.url == e.url && !u.isInternal
  {
    UrlSnapshot(e.name, e.url, false)
  }

  /** The URLs to add: one external URL per endpoint, in endpoint order, for
      every endpoint whose name no published URL carries, ignoring case. */
  function UrlsToAdd(endpoints: seq<ProxyEndpoint>, urls: seq<UrlSnapshot>): (r: seq<UrlSnapshot>)
    ensures |r| <= |endpoints|
    ensures forall k :: 0 <= k < |r| ==> !r[k].isInternal
  {
    if |endpoints| == 0 then []
    else (if HasUrlNamed(urls, endpoints[0].name) then [] else [ToUrlSnapshot(endpoints[0])])
         + UrlsToAdd(endpoints[1..], urls)
  }

  /** Every addition is the URL of an endpoint whose name is unpublished, and
      every such endpoint has its URL among the additions. */
  lemma {:induction false} UrlsToAddMembers(endpoints: seq<ProxyEndpoint>, urls: seq<UrlSnapshot>)
    ensures forall u :: u in UrlsToAdd(endpoints, urls) ==>
              !HasUrlNamed(urls, u.name) && ProxyEndpoint(u.name, u.url) in endpoints
    ensures forall e :: e in endpoints && !HasUrlNamed(urls, e.name) ==> ToUrlSnapshot(e) in UrlsToAdd(endpoints, urls)
  {
    if |endpoints| > 0 {
      var rest := endpoints[1..];
      UrlsToAddMembers(rest, urls);
      var head := if HasUrlNamed(urls, endpoints[0].name) then [] else [ToUrlSnapshot(endpoints[0])];
      var r := UrlsToAdd(endpoints, urls);
      assert r == head + UrlsToAdd(rest, urls);
      forall u | u in r
        ensures !HasUrlNamed(urls, u.name) && ProxyEndpoint(u.name, u.url) in endpoints
      {
        if u in head {
          assert u == ToUrlSnapshot(endpoints[0]);
        } else {
          assert u in UrlsToAdd(rest, urls);
          var j :| 0 <= j < |rest| && rest[j] == ProxyEndpoint(u.name, u.url);
          assert endpoints[j + 1] == rest[j];
        }
      }
      forall e | e in endpoints && !HasUrlNamed(urls, e.name)
        ensures ToUrlSnapshot(e) in r
      {
        if e != endpoints[0] {
          var j :| 0 <= j < |endpoints| && endpoints[j] == e;
          assert rest[j - 1] == e;
        }
      }
    }
  }

  /** The additions for a concatenation of endpoint lists are the additions for
      each part, in order: the endpoint order is kept. */
  lemma {:induction false} UrlsToAddAppend(a: seq<ProxyEndpoint>, b: seq<ProxyEndpoint>, urls: seq<UrlSnapshot>)
    ensures UrlsToAdd(a + b, urls) == UrlsToAdd(a, urls) + UrlsToAdd(b, urls)
  {
    if |a| == 0 {
      assert a + b == b;
    } else {
      assert (a + b)[1..] == a[1..] + b;
      UrlsToAddAppend(a[1..], b, urls);
    }
  }

  /** The additions contributed by one annotation. */
  function AdditionFor(a: Annotation, urls: seq<UrlSnapshot>): seq<UrlSnapshot>
  {
    if a.ReverseProxy? && !HasUrlNamed(urls, a.endpoint.name) then [ToUrlSnapshot(a.endpoint)] else []
  }

  /** Extending the scanned annotations by one adds that annotation's contribution at the end. */
  lemma CollectOne(annotations: seq<Annotation>, i: nat, urls: seq<UrlSnapshot>)
    requires i < |annotations|
    ensures UrlsToAdd(ProxyEndpoints(annotations[..i + 1]), urls)
            == UrlsToAdd(ProxyEndpoints(annotations[..i]), urls) + AdditionFor(annotations[i], urls)
  {
    assert annotations[..i + 1] == annotations[..i] + [annotations[i]];
    ProxyEndpointsAppend(annotations[..i], [annotations[i]]);
    var one := ProxyEndpoints([annotations[i]]);
    assert one == (if annotations[i].ReverseProxy? then [annotations[i].endpoint] else []);
    UrlsToAddAppend(ProxyEndpoints(annotations[..i]), one, urls);
    if annotations[i].ReverseProxy? {
      assert one[1..] == [];
    }
  }

  /** The inner `foreach` over the resource's reverse-proxy annotations,
      collecting the URLs to add into a builder. */
  method CollectUrlsToAdd(annotations: seq<Annotation>, urls: seq<UrlSnapshot>) returns (toAdd: seq<UrlSnapshot>)
    ensures toAdd == UrlsToAdd(ProxyEndpoints(annotations), urls)
  {
    toAdd := [];
    var i := 0;
    while i < |annotations|
      invariant 0 <= i <= |annotations|
      invariant toAdd == UrlsToAdd(ProxyEndpoints(annotations[..i]), urls)
    {
      var added: seq<UrlSnapshot> := [];
      if annotations[i].ReverseProxy? {
        var endpoint := annotations[i].endpoint;
        var urlAlreadyAdded := HasUrlNamed(urls, endpoint.name);
        if !urlAlreadyAdded {
          added := [ToUrlSnapshot(endpoint)];
        }
      }
      assert added == AdditionFor(annotations[i], urls);
      CollectOne(annotations, i, urls);
      toAdd := toAdd + added;
      i := i + 1;
    }
    assert annotations[..i] == annotations;
  }

  /** Some reverse-proxy endpoint of the resource has no published URL of its name. */
  predicate SomeEndpointUnpublished(annotations: seq<Annotation>, urls: seq<UrlSnapshot>)
  {
    exists k :: 0 <= k < |annotations| && annotations[k].ReverseProxy?
                && !HasUrlNamed(urls, annotations[k].endpoint.name)
  }

  /** The update request of one event whose snapshot publishes `eventUrls`:
      `None` when nothing is published, else the URLs to append. A request is
      made exactly when the resource is running and some reverse-proxy endpoint
      is unpublished, and it carries the additions, never none. */
  function PendingUrls(state: Option<ResourceState>, annotations: seq<Annotation>, eventUrls: seq<UrlSnapshot>)
    : (r: Option<seq<UrlSnapshot>>)
    ensures r.Some? <==> state == Some(Running) && SomeEndpointUnpublished(annotations, eventUrls)
    ensures r.Some? ==> |r.value| > 0 && r.value == UrlsToAdd(ProxyEndpoints(annotations), eventUrls)
  {
    if state != Some(Running) then None
    else
      var toAdd := UrlsToAdd(ProxyEndpoints(annotations), eventUrls);
      if |toAdd| > 0 then
        assert SomeEndpointUnpublished(annotations, eventUrls) by {
          UrlsToAddMembers(ProxyEndpoints(annotations), eventUrls);
          var e := ProxyEndpoint(toAdd[0].name, toAdd[0].url);
          assert toAdd[0] in toAdd;
          var k :| 0 <= k < |annotations| && annotations[k] == ReverseProxy(e);
        }
        Some(toAdd)
      else
        assert !SomeEndpointUnpublished(annotations, eventUrls) by {
          UrlsToAddMembers(ProxyEndpoints(annotations), eventUrls);
          forall k | 0 <= k < |annotations| && annotations[k].ReverseProxy?
            ensures HasUrlNamed(eventUrls, annotations[k].endpoint.name)
          {
            assert annotations[k].endpoint in ProxyEndpoints(annotations);
          }
        }
        None
  }

  /** The transformation handed to the publisher, `Urls = snapshot.Urls.AddRange(urlsToAdd)`:
      applied to whatever snapshot is current, it keeps its URLs first and
      appends the additions after them; no URL is dropped and none is invented. */
  function ApplyUpdate(current: seq<UrlSnapshot>, toAdd: seq<UrlSnapshot>): (r: seq<UrlSnapshot>)
    ensures |r| == |current| + |toAdd|
    ensures r[..|current|] == current && r[|current|..] == toAdd
    ensures forall u :: u in r <==> u in current || u in toAdd
  {
    current + toAdd
  }

  /** One event of the watch loop, with the update applied to the event's own
      snapshot `urls`: `None` when nothing is published, else the new URL list.
      An update happens exactly when the resource is running and some
      reverse-proxy endpoint is unpublished; it keeps the old URLs as a prefix
      and appends the missing ones. */
  function Step(state: Option<ResourceState>, annotations: seq<Annotation>, urls: seq<UrlSnapshot>)
    : (r: Option<seq<UrlSnapshot>>)
    ensures r.Some? <==> state == Some(Running) && SomeEndpointUnpublished(annotations, urls)
    ensures r.Some? ==> |urls| < |r.value| && r.value[..|urls|] == urls
    ensures r.Some? ==> r.value[|urls|..] == UrlsToAdd(ProxyEndpoints(annotations), urls)
  {
    match PendingUrls(state, annotations, urls)
    case None => None
    case Some(toAdd) => Some(ApplyUpdate(urls, toAdd))
  }

  /** The loop body for one event, as written: skip a resource that is not
      running, collect the missing URLs, and request an update only when there
      are any. */
  method HandleEvent(state: Option<ResourceState>, annotations: seq<Annotation>, eventUrls: seq<UrlSnapshot>)
    returns (update: Option<seq<UrlSnapshot>>)
    ensures update == PendingUrls(state, annotations, eventUrls)
  {
    if state != Some(Running) {
      return None;
    }
    var urlsToAdd := CollectUrlsToAdd(annotations, eventUrls);
    if |urlsToAdd| > 0 {
      update := Some(urlsToAdd);
    } else {
      update := None;
    }
  }

  /** A state record that says running but carries a style is not equal to
      the running constant, so such an event is skipped. */
  lemma StyledRunningSkipped(style: string, annotations: seq<Annotation>, urls: seq<UrlSnapshot>)
    ensures PendingUrls(Some(ResourceState("Running", Some(style))), annotations, urls).None?
  {
  }

  /** A name published in `urls` stays published in any extension of `urls`. */
  lemma HasUrlNamedExtends(urls: seq<UrlSnapshot>, later: seq<UrlSnapshot>, name: string)
    requires urls <= later
    requires HasUrlNamed(urls, name)
    ensures HasUrlNamed(later, name)
  {
    var k :| 0 <= k < |urls| && EqualsIgnoreCase(urls[k].name, name);
    assert later[k] == urls[k];
  }

  /** After an update, every reverse-proxy endpoint of the resource is published;
      so no snapshot that extends the updated one triggers another update. */
  lemma StepQuietAfterUpdate(state: Option<ResourceState>, annotations: seq<Annotation>, urls: seq<UrlSnapshot>,
                             later: seq<UrlSnapshot>)
    requires Step(state, annotations, urls).Some?
    requires Step(state, annotations, urls).value <= later
    ensures Step(state, annotations, later).None?
  {
    var updated := Step(state, annotations, urls).value;
    var toAdd := UrlsToAdd(ProxyEndpoints(annotations), urls);
    assert updated == urls + toAdd;
    UrlsToAddMembers(ProxyEndpoints(annotations), urls);
    forall k | 0 <= k < |annotations| && annotations[k].ReverseProxy?
      ensures HasUrlNamed(later, annotations[k].endpoint.name)
    {
      var e := annotations[k].endpoint;
      assert e in ProxyEndpoints(annotations);
      if HasUrlNamed(urls, e.name) {
        HasUrlNamedExtends(urls, later, e.name);
      } else {
        assert ToUrlSnapshot(e) in toAdd;
        var j :| 0 <= j < |toAdd| && toAdd[j] == ToUrlSnapshot(e);
        assert later[|urls| + j] == ToUrlSnapshot(e);
      }
    }
  }

  /** Idempotence: the step applied to its own output publishes nothing. */
  lemma StepIdempotent(state: Option<ResourceState>, annotations: seq<Annotation>, urls: seq<UrlSnapshot>)
    requires Step(state, annotations, urls).Some?
    ensures Step(state, annotations, Step(state, annotations, urls).value).None?
  {
    StepQuietAfterUpdate(state, annotations, urls, Step(state, annotations, urls).value);
  }

  /** Published URL names are pairwise distinct, ignoring case. */
  predicate UrlNamesDistinct(urls: seq<UrlSnapshot>)
  {
    forall i, j :: 0 <= i < j < |urls| ==> !EqualsIgnoreCase(urls[i].name, urls[j].name)
  }

  predicate EndpointNamesDistinct(endpoints: seq<ProxyEndpoint>)
  {
    forall i, j :: 0 <= i < j < |endpoints| ==> !EqualsIgnoreCase(endpoints[i].name, endpoints[j].name)
  }

  /** Dropping the first endpoint keeps the names distinct. */
  lemma EndpointNamesDistinctTail(endpoints: seq<ProxyEndpoint>)
    requires |endpoints| > 0
    requires EndpointNamesDistinct(endpoints)
    ensures EndpointNamesDistinct(endpoints[1..])
  {
    var rest := endpoints[1..];
    forall i, j | 0 <= i < j < |rest|
      ensures !EqualsIgnoreCase(rest[i].name, rest[j].name)
    {
      assert rest[i] == endpoints[i + 1] && rest[j] == endpoints[j + 1];
    }
  }

  /** No addition from the later endpoints carries the first endpoint's name. */
  lemma FirstNameNotAddedLater(endpoints: seq<ProxyEndpoint>, urls: seq<UrlSnapshot>)
    requires |endpoints| > 0
    requires EndpointNamesDistinct(endpoints)
    ensures forall u :: u in UrlsToAdd(endpoints[1..], urls) ==> !EqualsIgnoreCase(endpoints[0].name, u.name)
  {
    var rest := endpoints[1..];
    UrlsToAddMembers(rest, urls);
    forall u | u in UrlsToAdd(rest, urls)
      ensures !EqualsIgnoreCase(endpoints[0].name, u.name)
    {
      var j :| 0 <= j < |rest| && rest[j] == ProxyEndpoint(u.name, u.url);
      assert endpoints[j + 1] == rest[j];
    }
  }

  /** Prepending a URL whose name no later URL carries keeps names distinct. */
  lemma ConsDistinct(h: UrlSnapshot, tail: seq<UrlSnapshot>)
    requires UrlNamesDistinct(tail)
    requires forall u :: u in tail ==> !EqualsIgnoreCase(h.name, u.name)
    ensures UrlNamesDistinct([h] + tail)
  {
    var r := [h] + tail;
    forall i, j | 0 <= i < j < |r|
      ensures !EqualsIgnoreCase(r[i].name, r[j].name)
    {
      assert r[j] == tail[j - 1];
      if i == 0 {
        assert tail[j - 1] in tail;
      } else {
        assert r[i] == tail[i - 1];
      }
    }
  }

  /** Endpoints with distinct names yield additions with distinct names. */
  lemma {:induction false} UrlsToAddDistinct(endpoints: seq<ProxyEndpoint>, urls: seq<UrlSnapshot>)
    requires EndpointNamesDistinct(endpoints)
    ensures UrlNamesDistinct(UrlsToAdd(endpoints, urls))
  {
    if |endpoints| > 0 {
      EndpointNamesDistinctTail(endpoints);
      UrlsToAddDistinct(endpoints[1..], urls);
      if !HasUrlNamed(urls, endpoints[0].name) {
        FirstNameNotAddedLater(endpoints, urls);
        ConsDistinct(ToUrlSnapshot(endpoints[0]), UrlsToAdd(endpoints[1..], urls));
      }
    }
  }

  /** When the resource's reverse-proxy names are distinct and its published
      URL names are distinct, the update computed from this snapshot and applied
      to it adds no name twice. */
  lemma StepKeepsUrlNamesDistinct(state: Option<ResourceState>, annotations: seq<Annotation>, urls: seq<UrlSnapshot>)
    requires ProxyNamesDistinct(annotations)
    requires UrlNamesDistinct(urls)
    requires Step(state, annotations, urls).Some?
    ensures UrlNamesDistinct(Step(state, annotations, urls).value)
  {
    var eps := ProxyEndpoints(annotations);
    var toAdd := UrlsToAdd(eps, urls);
    UrlsToAddDistinct(eps, urls);
    UrlsToAddMembers(eps, urls);
    var r := Step(state, annotations, urls).value;
    assert r == urls + toAdd;
    forall i, j | 0 <= i < j < |r|
      ensures !EqualsIgnoreCase(r[i].name, r[j].name)
    {
      if j < |urls| {
        assert r[i] == urls[i] && r[j] == urls[j];
      } else if i < |urls| {
        assert r[j] == toAdd[j - |urls|] && toAdd[j - |urls|] in toAdd;
        assert r[i] == urls[i];
      } else {
        assert r[i] == toAdd[i - |urls|] && r[j] == toAdd[j - |urls|];
      }
    }
  }

  /** The additions are computed from the event's snapshot but appended to the
      snapshot current at publish time. An event whose snapshot predates an
      earlier update therefore appends a URL that is already there: with one
      endpoint, the first running event publishes it, and a second running
      event carrying the older, empty URL list appends it again. */
  lemma StaleEventDuplicates(e: ProxyEndpoint)
    ensures var anns := [ReverseProxy(e)];
            var published := Step(Some(Running), anns, []);
            var stale := PendingUrls(Some(Running), anns, []);
            && published == Some([ToUrlSnapshot(e)])
            && stale == Some([ToUrlSnapshot(e)])
            && ApplyUpdate(published.value, stale.value) == [ToUrlSnapshot(e), ToUrlSnapshot(e)]
            && !UrlNamesDistinct(ApplyUpdate(published.value, stale.value))
  {
    var anns := [ReverseProxy(e)];
    assert ProxyEndpoints(anns) == [e] by {
      assert anns[1..] == [];
    }
    assert !HasUrlNamed([], e.name);
    assert UrlsToAdd([e], []) == [ToUrlSnapshot(e)] by {
      assert [e][1..] == [];
    }
    var twice := [ToUrlSnapshot(e), ToUrlSnapshot(e)];
    assert EqualsIgnoreCase(twice[0].name, twice[1].name);
  }
}

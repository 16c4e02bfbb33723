/**
 * The state projection behind `GetAppState`: folds the deployment list, the
 * Endpoints object and the Service object of one application into the view
 * returned to callers.
 */
module Projector {
  import opened Wrappers
  import opened Objects
  import Seqs
  import GoText

  /** The tool's own summary of a managed deployment. */
  datatype Deployment = Deployment(name: string, image: string, track: string, replicas: Int32, availableReplicas: Int32)

  /** One reachable backend: the pod behind it and its address. */
  datatype Endpoint = Endpoint(targetPod: string, ip: string)

  datatype AppState = AppState(canaryEnabled: bool, deployments: seq<Deployment>, endpoints: seq<Endpoint>)

  /** Opted in: the marker annotation parses as true, and a `track` label key is present (its value may be empty). */
  predicate IsManaged(d: DeploymentObject) {
    && GoText.ParseBool(Lookup(d.meta.annotations, ManagedAnnotation)) == Some(true)
    && TrackLabel in d.meta.labels
  }

  /** The fields the projection dereferences exist: a non-nil replica count and a first container. */
  predicate Projectable(d: DeploymentObject) {
    d.spec.replicas.Some? && |d.spec.template.containers| > 0
  }

  predicate AllProjectable(items: seq<DeploymentObject>) {
    forall i :: 0 <= i < |items| ==> Projectable(items[i])
  }

  /** `view` is the summary of `obj`: its name, first image, track label, desired and available replicas. */
  predicate Describes(view: Deployment, obj: DeploymentObject) {
    && Projectable(obj)
    && view.name == obj.meta.name
    && view.image == obj.spec.template.containers[0].image
    && view.track == Lookup(obj.meta.labels, TrackLabel)
    && view.replicas == obj.spec.replicas.value
    && view.availableReplicas == obj.status.availableReplicas
  }

  /** An object has exactly one summary. */
  lemma DescriptionIsUnique(v: Deployment, w: Deployment, obj: DeploymentObject)
    requires Describes(v, obj) && Describes(w, obj)
    ensures v == w
  {
  }

  /** Summaries of a list with one more object at its end are the summaries of the list and then that object's. */
  lemma DescriptionsOfAppend(
    views: seq<Deployment>, kept: seq<DeploymentObject>, more: seq<Deployment>, obj: DeploymentObject, view: Deployment)
    requires |views| == |kept| && forall i :: 0 <= i < |kept| ==> Describes(views[i], kept[i])
    requires |more| == |kept| + 1 && forall i :: 0 <= i < |more| ==> Describes(more[i], (kept + [obj])[i])
    requires Describes(view, obj)
    ensures more == views + [view]
  {
    forall i | 0 <= i < |more|
      ensures more[i] == (views + [view])[i]
    {
      if i < |kept| {
        DescriptionIsUnique(more[i], views[i], kept[i]);
      } else {
        DescriptionIsUnique(more[i], view, obj);
      }
    }
  }

  /** `asCustomDeployment`: one summary per object, in order. */
  function ProjectDeployments(items: seq<DeploymentObject>): (views: seq<Deployment>)
    requires AllProjectable(items)
    ensures |views| == |items|
    ensures forall i :: 0 <= i < |items| ==> Describes(views[i], items[i])
  {
    if |items| == 0 then []
    else
      var v := items[0];
      [Deployment(v.meta.name, v.spec.template.containers[0].image, Lookup(v.meta.labels, TrackLabel),
                  v.spec.replicas.value, v.status.availableReplicas)]
      + ProjectDeployments(items[1..])
  }

  /** The fields `asCustomEndpoint` dereferences exist: every target reference is non-nil. */
  predicate AllTargeted(addresses: seq<EndpointAddress>) {
    forall i :: 0 <= i < |addresses| ==> addresses[i].targetRef.Some?
  }

  /** `e` names the pod behind `a` and its IP. */
  predicate Names(e: Endpoint, a: EndpointAddress) {
    a.targetRef.Some? && e.targetPod == a.targetRef.value.name && e.ip == a.ip
  }

  /** `asCustomEndpoint`: one endpoint per address, in order. */
  function ProjectEndpoints(addresses: seq<EndpointAddress>): (endpoints: seq<Endpoint>)
    requires AllTargeted(addresses)
    ensures |endpoints| == |addresses|
    ensures forall i :: 0 <= i < |addresses| ==> Names(endpoints[i], addresses[i])
  {
    if |addresses| == 0 then []
    else [Endpoint(addresses[0].targetRef.value.name, addresses[0].ip)] + ProjectEndpoints(addresses[1..])
  }

  /** The ready addresses of the first subset, or none when there is no subset. */
  function FirstSubsetAddresses(ep: EndpointsObject): seq<EndpointAddress> {
    if |ep.subsets| > 0 then ep.subsets[0].addresses else []
  }

  /** Traffic is split unless the selector pins `track` to exactly "main"; a missing key reads as "". */
  function CanaryEnabled(selector: Labels): (enabled: bool)
    ensures !enabled <==> TrackLabel in selector && selector[TrackLabel] == MainTrack
  {
    !(Lookup(selector, TrackLabel) == MainTrack)
  }

  /**
   * What the projection dereferences is there whenever it gets that far: it only
   * runs once all three gateway calls have succeeded, and only touches managed
   * deployments and the first subset's addresses.
   */
  predicate ProjectionDefined(
    listed: Result<seq<DeploymentObject>, GatewayError>,
    endpoints: Result<EndpointsObject, GatewayError>,
    service: Result<ServiceObject, GatewayError>)
  {
    listed.Success? && endpoints.Success? && service.Success? ==>
      && AllProjectable(Seqs.Filter(listed.value, IsManaged))
      && AllTargeted(FirstSubsetAddresses(endpoints.value))
  }

  /** `GetAppState`, given the results of the list call and the two get calls. */
  function GetAppState(
    listed: Result<seq<DeploymentObject>, GatewayError>,
    endpoints: Result<EndpointsObject, GatewayError>,
    service: Result<ServiceObject, GatewayError>): (r: Result<AppState, GatewayError>)
    requires ProjectionDefined(listed, endpoints, service)
    ensures r.Success? <==> listed.Success? && endpoints.Success? && service.Success?
    ensures listed.Failure? ==> r == Failure(listed.error)
    ensures listed.Success? && endpoints.Failure? ==> r == Failure(endpoints.error)
    ensures listed.Success? && endpoints.Success? && service.Failure? ==> r == Failure(service.error)
    ensures r.Success? ==>
      var kept := Seqs.Filter(listed.value, IsManaged);
      && |r.value.deployments| == |kept|
      && forall i :: 0 <= i < |kept| ==> Describes(r.value.deployments[i], kept[i])
    ensures r.Success? ==>
      var addresses := FirstSubsetAddresses(endpoints.value);
      && |r.value.endpoints| == |addresses|
      && forall i :: 0 <= i < |addresses| ==> Names(r.value.endpoints[i], addresses[i])
    ensures r.Success? && |endpoints.value.subsets| == 0 ==> r.value.endpoints == []
    ensures r.Success? ==>
      (!r.value.canaryEnabled <==>
        TrackLabel in service.value.spec.selector && service.value.spec.selector[TrackLabel] == MainTrack)
  {
    var items :- listed;
    var managed := Seqs.Filter(items, IsManaged);
    var ep :- endpoints;
    var svc :- service;
    Success(AppState(
      CanaryEnabled(svc.spec.selector),
      ProjectDeployments(managed),
      ProjectEndpoints(FirstSubsetAddresses(ep))))
  }

  /**
   * The filtering loop of `GetAppState`, branch for branch: skip on a parse
   * error, skip without a `track` key, keep when the parsed value is true.
   */
  method SelectManaged(items: seq<DeploymentObject>) returns (managed: seq<DeploymentObject>)
    ensures managed == Seqs.Filter(items, IsManaged)
  {
    managed := [];
    for i := 0 to |items|
      invariant managed == Seqs.Filter(items[..i], IsManaged)
    {
      var v := items[i];
      assert items[..i + 1] == items[..i] + [v];
      Seqs.FilterSnoc(items[..i], v, IsManaged);
      var parsed := GoText.ParseBool(Lookup(v.meta.annotations, ManagedAnnotation));
      assert IsManaged(v) <==> parsed == Some(true) && TrackLabel in v.meta.labels;
      if parsed.None? {
        continue;
      }
      if TrackLabel !in v.meta.labels {
        continue;
      }
      if parsed.value {
        managed := managed + [v];
      }
    }
    assert items[..|items|] == items;
  }

  predicate UniqueNames(items: seq<DeploymentObject>) {
    forall i, j :: 0 <= i < |items| && 0 <= j < |items| && items[i].meta.name == items[j].meta.name ==> i == j
  }

  /** The summaries of a list, pointwise. */
  predicate Summarises(views: seq<Deployment>, kept: seq<DeploymentObject>) {
    |views| == |kept| && forall i :: 0 <= i < |kept| ==> Describes(views[i], kept[i])
  }

  /** Every summarised object has a summary under its name. */
  lemma KeptSurfaces(views: seq<Deployment>, kept: seq<DeploymentObject>, x: DeploymentObject)
    requires Summarises(views, kept) && x in kept
    ensures exists d :: d in views && d.name == x.meta.name
  {
    var j :| 0 <= j < |kept| && kept[j] == x;
    assert views[j] in views;
  }

  /** With unique names, a summary under a listed object's name means that object was kept. */
  lemma SurfacedWasKept(items: seq<DeploymentObject>, views: seq<Deployment>, x: DeploymentObject)
    requires UniqueNames(items) && x in items
    requires Summarises(views, Seqs.Filter(items, IsManaged))
    requires exists d :: d in views && d.name == x.meta.name
    ensures IsManaged(x)
  {
    var kept := Seqs.Filter(items, IsManaged);
    var d :| d in views && d.name == x.meta.name;
    var j :| 0 <= j < |views| && views[j] == d;
    assert kept[j] in kept;
    var i :| 0 <= i < |items| && items[i] == kept[j];
    var k :| 0 <= k < |items| && items[k] == x;
    assert items[i].meta.name == items[k].meta.name;
  }

  /**
   * Within one namespace names are unique, so a listed deployment shows up in
   * the view exactly when it is managed: unmanaged ones never surface.
   */
  lemma SurfacedIffManaged(
    listed: Result<seq<DeploymentObject>, GatewayError>,
    endpoints: Result<EndpointsObject, GatewayError>,
    service: Result<ServiceObject, GatewayError>)
    requires listed.Success? && endpoints.Success? && service.Success?
    requires ProjectionDefined(listed, endpoints, service)
    requires UniqueNames(listed.value)
    ensures forall x :: x in listed.value ==>
      (IsManaged(x) <==> exists d :: d in GetAppState(listed, endpoints, service).value.deployments && d.name == x.meta.name)
  {
    var items := listed.value;
    var ds := GetAppState(listed, endpoints, service).value.deployments;
    assert Summarises(ds, Seqs.Filter(items, IsManaged));
    forall x | x in items
      ensures IsManaged(x) <==> exists d :: d in ds && d.name == x.meta.name
    {
      if IsManaged(x) {
        KeptSurfaces(ds, Seqs.Filter(items, IsManaged), x);
      }
      if exists d :: d in ds && d.name == x.meta.name {
        SurfacedWasKept(items, ds, x);
      }
    }
  }
}

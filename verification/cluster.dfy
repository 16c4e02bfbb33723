/**
 * The handlers as compositions: a minimal stand-in for the one namespace the
 * tool works in (list, get, create and patch by name), the `create_canary` and
 * `set_canary` flows over it, and the end-to-end rollout of one application.
 */
module Cluster {
  import opened Wrappers
  import opened Objects
  import Seqs
  import Projector
  import Canary
  import Traffic

  datatype Namespace = Namespace(
    deployments: seq<DeploymentObject>,
    services: map<string, ServiceObject>,
    endpoints: map<string, EndpointsObject>)

  /** The equality-based label selector `app=<app>`. */
  predicate LabelledWith(app: string, d: DeploymentObject) {
    AppLabel in d.meta.labels && d.meta.labels[AppLabel] == app
  }

  function AppSelector(app: string): DeploymentObject -> bool {
    d => LabelledWith(app, d)
  }

  /** Listing with the selector `app=<app>`, in store order. */
  function ListByApp(items: seq<DeploymentObject>, app: string): (listed: seq<DeploymentObject>)
    ensures forall x :: x in listed <==> x in items && LabelledWith(app, x)
  {
    Seqs.Filter(items, AppSelector(app))
  }

  /** Getting a deployment by its name. */
  function FindByName(items: seq<DeploymentObject>, name: string): (r: Result<DeploymentObject, GatewayError>)
    ensures r.Success? ==> r.value in items && r.value.meta.name == name
    ensures r.Failure? ==> r.error == NotFound(name) && forall x :: x in items ==> x.meta.name != name
  {
    if |items| == 0 then Failure(NotFound(name))
    else if items[0].meta.name == name then Success(items[0])
    else FindByName(items[1..], name)
  }

  /** Creating a deployment: refused when the name is taken, otherwise stored after the others. */
  function Create(ns: Namespace, d: DeploymentObject): (r: Result<Namespace, GatewayError>)
    ensures r.Failure? ==> r.error == AlreadyExists(d.meta.name) && exists x :: x in ns.deployments && x.meta.name == d.meta.name
    ensures r.Success? ==> r.value == ns.(deployments := ns.deployments + [d])
  {
    if FindByName(ns.deployments, d.meta.name).Success? then Failure(AlreadyExists(d.meta.name))
    else Success(ns.(deployments := ns.deployments + [d]))
  }

  function GetService(ns: Namespace, name: string): Result<ServiceObject, GatewayError> {
    if name in ns.services then Success(ns.services[name]) else Failure(NotFound(name))
  }

  function GetEndpoints(ns: Namespace, name: string): Result<EndpointsObject, GatewayError> {
    if name in ns.endpoints then Success(ns.endpoints[name]) else Failure(NotFound(name))
  }

  predicate ReadDefined(ns: Namespace, name: string) {
    Projector.ProjectionDefined(Success(ListByApp(ns.deployments, name)), GetEndpoints(ns, name), GetService(ns, name))
  }

  /** `GetAppState(name)` against the namespace. */
  function ReadState(ns: Namespace, name: string): (r: Result<Projector.AppState, GatewayError>)
    requires ReadDefined(ns, name)
    ensures r.Success? <==> name in ns.services && name in ns.endpoints
    ensures name !in ns.endpoints ==> r == Failure(NotFound(name))
    ensures name in ns.endpoints && name !in ns.services ==> r == Failure(NotFound(name))
  {
    Projector.GetAppState(Success(ListByApp(ns.deployments, name)), GetEndpoints(ns, name), GetService(ns, name))
  }

  /** What `create_canary` dereferences exists: the primary's first container, and the fields the re-read touches. */
  predicate CreateCanaryDefined(ns: Namespace, name: string, appLabel: string, req: Canary.CanaryRequest, token: string) {
    var primary := FindByName(ns.deployments, name);
    primary.Success? ==>
      && |primary.value.spec.template.containers| > 0
      && (var created := Create(ns, Canary.CanaryObject(appLabel, name, primary.value, req, token));
          created.Success? ==> ReadDefined(created.value, name))
  }

  /**
   * `create_canary`: get the primary by name, build the canary, create it, and
   * re-read the application. Returns the namespace afterwards and the response.
   * `appLabel` is the canary's `app` label: the handler as written passes
   * "nginx" (`Canary.BuildCanary`), the evidently intended handler passes
   * `name` (`Canary.BuildCanaryForApp`).
   */
  function CreateCanaryHandler(ns: Namespace, name: string, appLabel: string, req: Canary.CanaryRequest, token: string)
    : (out: (Namespace, Result<Projector.AppState, GatewayError>))
    requires CreateCanaryDefined(ns, name, appLabel, req, token)
    ensures FindByName(ns.deployments, name).Failure? ==> out == (ns, Failure(NotFound(name)))
    ensures out.0.services == ns.services && out.0.endpoints == ns.endpoints
    ensures out.0 != ns ==>
      && FindByName(ns.deployments, name).Success?
      && |out.0.deployments| == |ns.deployments| + 1
      && out.0.deployments[..|ns.deployments|] == ns.deployments
      && out.0.deployments[|ns.deployments|]
         == Canary.CanaryObject(appLabel, name, FindByName(ns.deployments, name).value, req, token)
      && ReadDefined(out.0, name)
      && out.1 == ReadState(out.0, name)
    ensures out.0 == ns ==> out.1.Failure?
    ensures FindByName(ns.deployments, name).Success? ==>
      var created := Create(ns, Canary.CanaryObject(appLabel, name, FindByName(ns.deployments, name).value, req, token));
      && (created.Failure? ==> out == (ns, Failure(created.error)))
      && (created.Success? ==> out.0 == created.value)
  {
    var primary := FindByName(ns.deployments, name);
    if primary.Failure? then (ns, Failure(primary.error))
    else
      var canary := Canary.CanaryObject(appLabel, name, primary.value, req, token);
      var created := Create(ns, canary);
      if created.Failure? then (ns, Failure(created.error))
      else
        assert created.value.deployments[..|ns.deployments|] == ns.deployments;
        (created.value, ReadState(created.value, name))
  }

  /** What `set_canary` dereferences on the re-read exists, when it gets that far. */
  predicate SetCanaryDefined(ns: Namespace, name: string, enabled: bool) {
    (name in ns.services && Traffic.SetCanaryTraffic(ns.services[name].spec.selector, enabled).Success?)
      ==> ReadDefined(ns, name)
  }

  /**
   * `set_canary`: patch the Service's selector by name and re-read the
   * application. The wait for the endpoints controller is not modelled, so the
   * re-read sees the endpoints as they were.
   */
  function SetCanaryHandler(ns: Namespace, name: string, enabled: bool)
    : (out: (Namespace, Result<Projector.AppState, GatewayError>))
    requires SetCanaryDefined(ns, name, enabled)
    ensures name !in ns.services ==> out == (ns, Failure(NotFound(name)))
    ensures out.0.deployments == ns.deployments && out.0.endpoints == ns.endpoints
    ensures out.0.services.Keys == ns.services.Keys
    ensures forall other :: other in ns.services && other != name ==> out.0.services[other] == ns.services[other]
    ensures name in ns.services ==>
      var switched := Traffic.SetCanaryTraffic(ns.services[name].spec.selector, enabled);
      && (switched.Failure? ==> out == (ns, Failure(PatchRejected(switched.error))))
      && (switched.Success? ==> out.0.services[name] == ns.services[name].(spec := ServiceSpec(switched.value)))
      && (switched.Success? ==> ReadDefined(out.0, name) && out.1 == ReadState(out.0, name))
    ensures out.1.Success? ==> out.1.value.canaryEnabled == enabled
  {
    if name !in ns.services then (ns, Failure(NotFound(name)))
    else
      var svc := ns.services[name];
      Traffic.TrafficPatchHasSwitchEffect(svc.spec.selector, enabled);
      var patched := Traffic.ApplyPatch(svc.spec.selector, Traffic.TrafficPatch(enabled));
      if patched.Failure? then (ns, Failure(PatchRejected(patched.error)))
      else
        var next := ns.(services := ns.services[name := svc.(spec := svc.spec.(selector := patched.value))]);
        assert ListByApp(next.deployments, name) == ListByApp(ns.deployments, name);
        (next, ReadState(next, name))
  }

  /** A successful switch replaces the named Service's selector and nothing else in the namespace. */
  lemma SwitchReplacesOnlySelector(ns: Namespace, name: string, enabled: bool)
    requires SetCanaryDefined(ns, name, enabled)
    requires name in ns.services
    requires Traffic.SetCanaryTraffic(ns.services[name].spec.selector, enabled).Success?
    ensures var svc := ns.services[name];
      var switched := Traffic.SetCanaryTraffic(svc.spec.selector, enabled).value;
      SetCanaryHandler(ns, name, enabled).0 == ns.(services := ns.services[name := svc.(spec := ServiceSpec(switched))])
  {
    var svc := ns.services[name];
    var switched := Traffic.SetCanaryTraffic(svc.spec.selector, enabled).value;
    var out := SetCanaryHandler(ns, name, enabled).0;
    var next := ns.(services := ns.services[name := svc.(spec := ServiceSpec(switched))]);
    assert out.services == next.services by {
      assert out.services.Keys == next.services.Keys;
      forall k | k in out.services
        ensures out.services[k] == next.services[k]
      {
      }
    }
  }

  /** Disabling through the handler twice leaves the namespace as disabling once. */
  lemma DisableHandlerIsIdempotent(ns: Namespace, name: string)
    requires SetCanaryDefined(ns, name, false)
    ensures SetCanaryDefined(SetCanaryHandler(ns, name, false).0, name, false)
    ensures SetCanaryHandler(SetCanaryHandler(ns, name, false).0, name, false).0 == SetCanaryHandler(ns, name, false).0
  {
    var once := SetCanaryHandler(ns, name, false).0;
    if name in ns.services && Traffic.SetCanaryTraffic(ns.services[name].spec.selector, false).Success? {
      Traffic.DisableIsIdempotent(ns.services[name].spec.selector);
      assert ListByApp(once.deployments, name) == ListByApp(ns.deployments, name);
      var twice := SetCanaryHandler(once, name, false).0;
      assert twice.services == once.services;
    }
  }

  /** Appending one deployment appends it to the listing of its own application only. */
  lemma ListByAppSnoc(items: seq<DeploymentObject>, d: DeploymentObject, app: string)
    ensures ListByApp(items + [d], app) == ListByApp(items, app) + (if LabelledWith(app, d) then [d] else [])
  {
    Seqs.FilterConcat(items, [d], AppSelector(app));
    assert Seqs.Filter([d], AppSelector(app)) == Seqs.Filter([d][1..], AppSelector(app)) + (if LabelledWith(app, d) then [d] else []);
  }

  /**
   * As written, the canary is labelled `app=nginx`: for any other application it
   * never appears in that application's listing, so the state returned after
   * creating it is the state from before.
   */
  lemma HardCodedAppHidesCanary(ns: Namespace, name: string, req: Canary.CanaryRequest, token: string)
    requires name != Canary.HardCodedApp
    requires CreateCanaryDefined(ns, name, Canary.HardCodedApp, req, token)
    requires CreateCanaryHandler(ns, name, Canary.HardCodedApp, req, token).1.Success?
    ensures ReadDefined(ns, name)
    ensures CreateCanaryHandler(ns, name, Canary.HardCodedApp, req, token).1 == ReadState(ns, name)
  {
    var primary := FindByName(ns.deployments, name).value;
    var canary := Canary.BuildCanary(name, primary, req, token);
    var next := Create(ns, canary).value;
    assert !LabelledWith(name, canary);
    ListByAppSnoc(ns.deployments, canary, name);
    assert ListByApp(next.deployments, name) == ListByApp(ns.deployments, name);
    assert GetEndpoints(next, name) == GetEndpoints(ns, name);
    assert GetService(next, name) == GetService(ns, name);
  }

  /** A concrete instance: application "web" gets a canary that its own view never shows. */
  lemma WebCanaryIsInvisible(primary: DeploymentObject, req: Canary.CanaryRequest, token: string)
    requires |primary.spec.template.containers| > 0
    ensures var canary := Canary.BuildCanary("web", primary, req, token);
      ListByApp([primary, canary], "web") == ListByApp([primary], "web")
  {
    var canary := Canary.BuildCanary("web", primary, req, token);
    ListByAppSnoc([primary], canary, "web");
    assert [primary] + [canary] == [primary, canary];
  }

  /** A managed deployment of the application, once stored, is appended to its listing and to its managed listing. */
  lemma StoredManagedIsListed(items: seq<DeploymentObject>, name: string, d: DeploymentObject)
    requires LabelledWith(name, d) && Projector.IsManaged(d)
    ensures ListByApp(items + [d], name) == ListByApp(items, name) + [d]
    ensures Seqs.Filter(ListByApp(items + [d], name), Projector.IsManaged)
         == Seqs.Filter(ListByApp(items, name), Projector.IsManaged) + [d]
  {
    ListByAppSnoc(items, d, name);
    Seqs.FilterConcat(ListByApp(items, name), [d], Projector.IsManaged);
    assert Seqs.Filter([d], Projector.IsManaged) == [d] + Seqs.Filter([d][1..], Projector.IsManaged);
  }

  /**
   * Corrected, the canary carries its own application's label: it is appended
   * to that application's listing and, being managed, to the projected view.
   */
  lemma CorrectedCanaryIsListed(items: seq<DeploymentObject>, name: string, primary: DeploymentObject, req: Canary.CanaryRequest, token: string)
    requires |primary.spec.template.containers| > 0
    ensures var canary := Canary.BuildCanaryForApp(name, primary, req, token);
      && ListByApp(items + [canary], name) == ListByApp(items, name) + [canary]
      && Seqs.Filter(ListByApp(items + [canary], name), Projector.IsManaged)
         == Seqs.Filter(ListByApp(items, name), Projector.IsManaged) + [canary]
  {
    StoredManagedIsListed(items, name, Canary.BuildCanaryForApp(name, primary, req, token));
  }

  /** A successful corrected create stores the canary after the other deployments and nothing else. */
  lemma CorrectedCreateStores(ns: Namespace, name: string, req: Canary.CanaryRequest, token: string)
    requires CreateCanaryDefined(ns, name, name, req, token)
    requires CreateCanaryHandler(ns, name, name, req, token).1.Success?
    ensures FindByName(ns.deployments, name).Success?
    ensures var canary := Canary.CanaryObject(name, name, FindByName(ns.deployments, name).value, req, token);
      CreateCanaryHandler(ns, name, name, req, token).0 == ns.(deployments := ns.deployments + [canary])
  {
    var out := CreateCanaryHandler(ns, name, name, req, token);
    var canary := Canary.CanaryObject(name, name, FindByName(ns.deployments, name).value, req, token);
    assert out.0.deployments == ns.deployments + [canary];
  }

  /** Whatever the state after storing a managed deployment of the application requires, the state before has. */
  lemma ReadDefinedBeforeStore(ns: Namespace, name: string, d: DeploymentObject)
    requires LabelledWith(name, d) && Projector.IsManaged(d)
    requires ReadDefined(ns.(deployments := ns.deployments + [d]), name)
    ensures ReadDefined(ns, name)
  {
    StoredManagedIsListed(ns.deployments, name, d);
    var kept := Seqs.Filter(ListByApp(ns.deployments, name), Projector.IsManaged);
    assert forall i :: 0 <= i < |kept| ==> kept[i] == (kept + [d])[i];
  }

  /**
   * After a successful create by the corrected handler, the response shows
   * the new canary: it is the state from before with the canary's summary
   * appended, the same pods and the same traffic split.
   */
  lemma CorrectedCreateShowsCanary(ns: Namespace, name: string, req: Canary.CanaryRequest, token: string)
    requires CreateCanaryDefined(ns, name, name, req, token)
    requires CreateCanaryHandler(ns, name, name, req, token).1.Success?
    ensures ReadDefined(ns, name) && ReadState(ns, name).Success?
    ensures FindByName(ns.deployments, name).Success?
    ensures var primary := FindByName(ns.deployments, name).value;
      var before := ReadState(ns, name).value;
      var after := CreateCanaryHandler(ns, name, name, req, token).1.value;
      && after.deployments == before.deployments + [Projector.Deployment(
           Canary.CanaryName(name, token),
           Canary.RewriteImage(primary.spec.template.containers[0].image, req.tag),
           CanaryTrack, req.replicas, 0)]
      && after.endpoints == before.endpoints
      && after.canaryEnabled == before.canaryEnabled
  {
    CorrectedCreateStores(ns, name, req, token);
    var out := CreateCanaryHandler(ns, name, name, req, token);
    var primary := FindByName(ns.deployments, name).value;
    var canary := Canary.CanaryObject(name, name, primary, req, token);
    StoredManagedIsListed(ns.deployments, name, canary);
    ReadDefinedBeforeStore(ns, name, canary);
    var view := Projector.Deployment(
      Canary.CanaryName(name, token),
      Canary.RewriteImage(primary.spec.template.containers[0].image, req.tag),
      CanaryTrack, req.replicas, 0);
    var before := ReadState(ns, name).value;
    var after := out.1.value;
    Canary.CanaryView(name, name, primary, req, token);
    Projector.DescriptionsOfAppend(
      before.deployments, Seqs.Filter(ListByApp(ns.deployments, name), Projector.IsManaged),
      after.deployments, canary, view);
    assert after.endpoints == before.endpoints by {
      forall i | 0 <= i < |after.endpoints|
        ensures after.endpoints[i] == before.endpoints[i]
      {
      }
    }
  }
}

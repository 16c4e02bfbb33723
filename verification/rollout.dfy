/**
 * One application's canary rollout end to end: a primary "nginx" deployment on
 * the main track behind a Service pinned to it, then a canary, then traffic
 * split across both tracks.
 */
module Rollout {
  import opened Wrappers
  import opened Objects
  import Seqs
  import Projector
  import Canary
  import Traffic
  import Cluster
  import GoText

  const App := "nginx"
  const MainLabels: Labels := map[AppLabel := App, TrackLabel := MainTrack]

  const Primary := DeploymentObject(
    ObjectMeta(App, MainLabels, map[ManagedAnnotation := "true"]),
    DeploymentSpec(
      Some(3),
      MainLabels,
      PodTemplate(MainLabels, [Container("nginx", "nginx:1.25.0-alpine", map[])], []),
      "RollingUpdate",
      0),
    DeploymentStatus(3))

  const Pod := EndpointAddress("10.0.0.7", Some(ObjectReference("Pod", "nginx-5d8f7-abcde")))

  const Start := Cluster.Namespace(
    [Primary],
    map[App := Service],
    map[App := EndpointsObject(ObjectMeta(App, map[], map[]), [EndpointSubset([Pod], [])])])

  const Request := Canary.CanaryRequest("canary", 1)
  const Token := "bold_turing"

  const MainView := Projector.Deployment(App, "nginx:1.25.0-alpine", MainTrack, 3, 3)
  const PodView := Projector.Endpoint("nginx-5d8f7-abcde", "10.0.0.7")

  /** The primary is managed and listed under its application. */
  lemma PrimaryIsListedAndManaged()
    ensures Cluster.ListByApp([Primary], App) == [Primary]
    ensures Seqs.Filter([Primary], Projector.IsManaged) == [Primary]
  {
    assert Cluster.LabelledWith(App, Primary);
    assert Projector.IsManaged(Primary);
  }

  /** Before any canary: one deployment, traffic pinned to the main track. */
  lemma InitialState()
    ensures Cluster.ReadDefined(Start, App)
    ensures Cluster.ReadState(Start, App) == Success(Projector.AppState(false, [MainView], [PodView]))
  {
    PrimaryIsListedAndManaged();
    var r := Cluster.ReadState(Start, App);
    assert r.Success?;
    assert Projector.Describes(r.value.deployments[0], Primary);
    assert r.value.deployments == [MainView];
    assert Projector.Names(r.value.endpoints[0], Pod);
    assert r.value.endpoints == [PodView];
    assert !r.value.canaryEnabled;
  }

  /** The canary the handler builds for this request. */
  function RolloutCanary(): DeploymentObject {
    Canary.BuildCanaryForApp(App, Primary, Request, Token)
  }

  const ExpectedCanaryName := "nginx-canary-bold-turing"
  const ExpectedCanaryView := Projector.Deployment(ExpectedCanaryName, "nginx:canary", CanaryTrack, 1, 0)

  /** The token with its '_' turned into '-'. */
  lemma TokenDashed()
    ensures GoText.ReplaceAll(Token, '_', '-') == "bold-turing"
  {
  }

  /** The generated name. */
  lemma CanaryNameSpelled()
    ensures Canary.CanaryName(App, Token) == ExpectedCanaryName
  {
    TokenDashed();
  }

  /** The canary's image keeps the repository and takes the requested tag. */
  lemma CanaryImageRetagged()
    ensures Canary.RewriteImage("nginx:1.25.0-alpine", Request.tag) == "nginx:canary"
  {
    assert "nginx:1.25.0-alpine" == "nginx" + ":" + "1.25.0-alpine";
    Canary.RewriteKeepsTextBeforeFirstColon("nginx", "1.25.0-alpine", "canary");
  }

  /** The canary is listed under the application and managed. */
  lemma CanaryIsListedAndManaged()
    ensures Projector.IsManaged(RolloutCanary()) && Cluster.LabelledWith(App, RolloutCanary())
    ensures Projector.Projectable(RolloutCanary())
  {
  }

  /** The canary is projected as track "canary" with the re-tagged image and the requested replicas. */
  lemma CanaryIsProjected()
    ensures Projector.Describes(ExpectedCanaryView, RolloutCanary())
  {
    CanaryNameSpelled();
    CanaryImageRetagged();
    Canary.CanaryView(App, App, Primary, Request, Token);
  }

  /** The namespace once the canary exists. */
  function AfterCreate(): Cluster.Namespace {
    Start.(deployments := [Primary, RolloutCanary()])
  }

  /** The canary's name is free, so creating it appends it after the primary. */
  lemma CanaryCreateAppends()
    ensures Cluster.FindByName(Start.deployments, App) == Success(Primary)
    ensures Cluster.Create(Start, RolloutCanary()) == Success(AfterCreate())
  {
    var name := RolloutCanary().meta.name;
    assert name == ExpectedCanaryName by { CanaryNameSpelled(); }
    assert name != App by { assert |ExpectedCanaryName| != |App|; }
    assert Start.deployments == [Primary];
    assert [Primary][1..] == [];
    assert Cluster.FindByName([Primary], name) == Cluster.FindByName([], name);
    assert Start.deployments + [RolloutCanary()] == [Primary, RolloutCanary()];
  }

  /** A second deployment of the application that is managed and can be summarised. */
  predicate Companion(c: DeploymentObject) {
    Projector.IsManaged(c) && Cluster.LabelledWith(App, c) && Projector.Projectable(c)
  }

  /** Both deployments are listed under the application and both are managed, primary first. */
  lemma BothListedAndManaged(c: DeploymentObject)
    requires Companion(c)
    ensures Cluster.ListByApp([Primary, c], App) == [Primary, c]
    ensures Seqs.Filter([Primary, c], Projector.IsManaged) == [Primary, c]
  {
    PrimaryIsListedAndManaged();
    assert [Primary, c] == [Primary] + [c];
    Cluster.ListByAppSnoc([Primary], c, App);
    Seqs.FilterConcat([Primary], [c], Projector.IsManaged);
  }

  /**
   * Any namespace holding the primary and a companion, the pod's Endpoints and
   * a Service for the application reads back the two summaries and the pod,
   * with `canaryEnabled` following the Service's selector.
   */
  lemma ReadBothTracks(ns: Cluster.Namespace, c: DeploymentObject)
    requires Companion(c)
    requires ns.deployments == [Primary, c]
    requires ns.endpoints == Start.endpoints
    requires App in ns.services
    ensures Cluster.ReadDefined(ns, App)
    ensures var r := Cluster.ReadState(ns, App);
      && r.Success?
      && |r.value.deployments| == 2
      && Projector.Describes(r.value.deployments[0], Primary)
      && Projector.Describes(r.value.deployments[1], c)
      && |r.value.endpoints| == 1
      && Projector.Names(r.value.endpoints[0], Pod)
      && r.value.canaryEnabled == Projector.CanaryEnabled(ns.services[App].spec.selector)
  {
    BothListedAndManaged(c);
  }

  /** With the canary as companion, those summaries spell out to the two views and the pod. */
  lemma SummariesOfBothTracks(state: Projector.AppState, enabled: bool)
    requires |state.deployments| == 2
    requires Projector.Describes(state.deployments[0], Primary)
    requires Projector.Describes(state.deployments[1], RolloutCanary())
    requires |state.endpoints| == 1 && Projector.Names(state.endpoints[0], Pod)
    requires state.canaryEnabled == enabled
    ensures state == Projector.AppState(enabled, [MainView, ExpectedCanaryView], [PodView])
  {
    CanaryIsProjected();
    Projector.DescriptionIsUnique(state.deployments[0], MainView, Primary);
    Projector.DescriptionIsUnique(state.deployments[1], ExpectedCanaryView, RolloutCanary());
    assert state.deployments == [MainView, ExpectedCanaryView];
    assert state.endpoints == [PodView];
  }

  /** Re-reading after the create shows both tracks, with traffic still pinned to the main one. */
  lemma ReadAfterCreate()
    ensures Cluster.ReadDefined(AfterCreate(), App)
    ensures Cluster.ReadState(AfterCreate(), App) == Success(Projector.AppState(false, [MainView, ExpectedCanaryView], [PodView]))
  {
    var ns := AfterCreate();
    assert ns.services[App].spec.selector == MainLabels;
    assert !Projector.CanaryEnabled(MainLabels);
    CanaryIsListedAndManaged();
    ReadBothTracks(ns, RolloutCanary());
    SummariesOfBothTracks(Cluster.ReadState(ns, App).value, false);
  }

  /** `create_canary` on the primary: the canary is created and the response lists it beside the primary. */
  lemma CanaryCreated()
    ensures Cluster.CreateCanaryDefined(Start, App, App, Request, Token)
    ensures Cluster.CreateCanaryHandler(Start, App, App, Request, Token)
      == (AfterCreate(), Success(Projector.AppState(false, [MainView, ExpectedCanaryView], [PodView])))
  {
    CanaryCreateAppends();
    ReadAfterCreate();
  }

  /** The selector once traffic is split: the application key alone. */
  const SplitLabels: Labels := map[AppLabel := App]

  const Service := ServiceObject(ObjectMeta(App, map[], map[]), ServiceSpec(MainLabels))

  /** The namespace once traffic is split. */
  function AfterSplit(): Cluster.Namespace {
    AfterCreate().(services := map[App := Service.(spec := ServiceSpec(SplitLabels))])
  }

  /** Enabling removes the track key and keeps the application key. */
  lemma SplitSelector()
    ensures Traffic.SetCanaryTraffic(MainLabels, true) == Success(SplitLabels)
  {
    var r := Traffic.SetCanaryTraffic(MainLabels, true);
    assert AppLabel != TrackLabel by { assert |AppLabel| != |TrackLabel|; }
    assert TrackLabel in MainLabels;
    assert MainLabels.Keys - {TrackLabel} == {AppLabel};
    assert r.value.Keys - {TrackLabel} == {AppLabel};
    assert r.value.Keys == {AppLabel};
    assert r.value[AppLabel] == App;
    assert r.value == SplitLabels;
  }

  /** A namespace holding the primary and a companion behind the application's Service with the given selector. */
  predicate Staged(ns: Cluster.Namespace, c: DeploymentObject, selector: Labels) {
    && Companion(c)
    && ns.deployments == [Primary, c]
    && ns.endpoints == Start.endpoints
    && ns.services == map[App := Service.(spec := ServiceSpec(selector))]
  }

  /** Switching traffic on such a namespace may be asked for. */
  lemma SwitchDefined(ns: Cluster.Namespace, c: DeploymentObject, selector: Labels, enabled: bool)
    requires Staged(ns, c, selector)
    ensures Cluster.SetCanaryDefined(ns, App, enabled)
  {
    ReadBothTracks(ns, c);
  }

  /** `set_canary` on such a namespace replaces the Service's selector by the switched one. */
  lemma SwitchStep(ns: Cluster.Namespace, c: DeploymentObject, selector: Labels, enabled: bool, switched: Labels)
    requires Staged(ns, c, selector)
    requires Traffic.SetCanaryTraffic(selector, enabled) == Success(switched)
    ensures Cluster.SetCanaryDefined(ns, App, enabled)
    ensures Cluster.SetCanaryHandler(ns, App, enabled).0
      == ns.(services := map[App := Service.(spec := ServiceSpec(switched))])
  {
    SwitchDefined(ns, c, selector, enabled);
    Cluster.SwitchReplacesOnlySelector(ns, App, enabled);
    OverwriteSingleton(App, Service.(spec := ServiceSpec(selector)), Service.(spec := ServiceSpec(switched)));
  }

  /** `set_canary` with enabled: the Service selects both tracks and the response says so. */
  lemma TrafficSplit()
    ensures Cluster.SetCanaryDefined(AfterCreate(), App, true)
    ensures Cluster.SetCanaryHandler(AfterCreate(), App, true)
      == (AfterSplit(), Success(Projector.AppState(true, [MainView, ExpectedCanaryView], [PodView])))
  {
    CanaryIsListedAndManaged();
    SplitSelector();
    SwitchStep(AfterCreate(), RolloutCanary(), MainLabels, true, SplitLabels);
    var ns := AfterSplit();
    assert Projector.CanaryEnabled(SplitLabels) by { assert TrackLabel !in SplitLabels; }
    ReadBothTracks(ns, RolloutCanary());
    SummariesOfBothTracks(Cluster.ReadState(ns, App).value, true);
  }

  /** Disabling puts the track key back with "main". */
  lemma RestoreSelector()
    ensures Traffic.SetCanaryTraffic(SplitLabels, false) == Success(MainLabels)
  {
    SplitSelector();
    assert |MainLabels| > 1 by { assert AppLabel != TrackLabel by { assert |AppLabel| != |TrackLabel|; } }
    Traffic.DisableUndoesEnable(MainLabels);
  }

  /** `set_canary` with disabled after the split: the namespace and the response are those right after the create. */
  lemma TrafficRestored()
    ensures Cluster.SetCanaryDefined(AfterSplit(), App, false)
    ensures Cluster.SetCanaryHandler(AfterSplit(), App, false)
      == (AfterCreate(), Success(Projector.AppState(false, [MainView, ExpectedCanaryView], [PodView])))
  {
    CanaryIsListedAndManaged();
    RestoreSelector();
    SwitchStep(AfterSplit(), RolloutCanary(), SplitLabels, false, MainLabels);
    assert AfterSplit().(services := map[App := Service.(spec := ServiceSpec(MainLabels))]) == AfterCreate();
    ReadAfterCreate();
  }

  /** Overwriting the only entry of a map leaves a map with only the new entry. */
  lemma OverwriteSingleton<K, V>(k: K, v: V, w: V)
    ensures map[k := v][k := w] == map[k := w]
  {
    assert map[k := v][k := w].Keys == {k};
  }
}

/** The application index behind the `/` handler: every application named by some deployment's `app` label. */
module AppIndex {
  import opened Wrappers
  import opened Objects

  /** The deployment's `app` label, "" when it has none. */
  function AppOf(d: DeploymentObject): string {
    Lookup(d.meta.labels, AppLabel)
  }

  /** The distinct non-empty `app` labels of `items`. */
  function AppNames(items: seq<DeploymentObject>): (names: set<string>)
    ensures forall a :: a in names <==> a != "" && exists i :: 0 <= i < |items| && AppOf(items[i]) == a
  {
    if |items| == 0 then {}
    else
      var init := items[..|items| - 1];
      var last := AppOf(items[|items| - 1]);
      assert forall i :: 0 <= i < |init| ==> init[i] == items[i];
      AppNames(init) + (if last != "" then {last} else {})
  }

  /**
   * The `/` handler: a failed list is answered with its error and no index;
   * otherwise the names of the listed deployments' applications.
   */
  method CollectApps(listed: Result<seq<DeploymentObject>, GatewayError>)
    returns (r: Result<seq<string>, GatewayError>)
    ensures r.Success? <==> listed.Success?
    ensures listed.Failure? ==> r == Failure(listed.error)
    ensures listed.Success? ==> forall a :: a in r.value <==> a in AppNames(listed.value)
    ensures listed.Success? ==> forall i, j :: 0 <= i < j < |r.value| ==> r.value[i] != r.value[j]
  {
    if listed.Failure? {
      return Failure(listed.error);
    }
    var apps := ListApps(listed.value);
    return Success(apps);
  }

  /**
   * The handler's two loops: collect the labels into a set, then list the set's
   * members. The listing order is whatever the set yields, as Go's map
   * iteration order is unspecified.
   */
  method ListApps(items: seq<DeploymentObject>) returns (apps: seq<string>)
    ensures forall a :: a in apps <==> a in AppNames(items)
    ensures forall i, j :: 0 <= i < j < |apps| ==> apps[i] != apps[j]
  {
    var seen: set<string> := {};
    for i := 0 to |items|
      invariant seen == AppNames(items[..i])
    {
      assert items[..i + 1][..i] == items[..i];
      var app := AppOf(items[i]);
      if app != "" {
        seen := seen + {app};
      }
    }
    assert items[..|items|] == items;
    apps := [];
    var rest := seen;
    while rest != {}
      invariant forall a :: a in seen <==> a in apps || a in rest
      invariant forall i :: 0 <= i < |apps| ==> apps[i] !in rest
      invariant forall i, j :: 0 <= i < j < |apps| ==> apps[i] != apps[j]
      decreases rest
    {
      var a :| a in rest;
      apps := apps + [a];
      rest := rest - {a};
    }
  }
}

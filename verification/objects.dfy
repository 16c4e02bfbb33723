/**
 * The Kubernetes objects the tool reads and writes, reduced to the fields it
 * touches plus a few representative fields it copies without looking at them.
 * Go maps are modelled as Dafny maps; a nil map and an empty map are not told apart.
 */
module Objects {
  import opened Wrappers

  /** Go's `int32`, the type of replica counts. */
  type Int32 = x: int | -0x8000_0000 <= x < 0x8000_0000

  type Labels = map<string, string>

  /** Label and annotation conventions shared with the cluster. */
  const AppLabel := "app"
  const TrackLabel := "track"
  const ManagedAnnotation := "devops-tool-htmx"
  const MainTrack := "main"
  const CanaryTrack := "canary"

  /** Reading a Go map: a missing key yields the zero value "". */
  function Lookup(m: Labels, key: string): string {
    if key in m then m[key] else ""
  }

  /** Equality-based label selection: every selector pair is present in `labels`. */
  predicate Selects(selector: Labels, labels: Labels) {
    forall k :: k in selector ==> k in labels && labels[k] == selector[k]
  }

  datatype ObjectMeta = ObjectMeta(name: string, labels: Labels, annotations: Labels)

  datatype Container = Container(name: string, image: string, env: Labels)

  datatype PodTemplate = PodTemplate(labels: Labels, containers: seq<Container>, volumes: seq<string>)

  /** `replicas` may be nil in Go: `None` is nil. `matchLabels` is the selector's match labels. */
  datatype DeploymentSpec = DeploymentSpec(
    replicas: Option<Int32>,
    matchLabels: Labels,
    template: PodTemplate,
    strategy: string,
    minReadySeconds: Int32)

  datatype DeploymentStatus = DeploymentStatus(availableReplicas: Int32)

  datatype DeploymentObject = DeploymentObject(meta: ObjectMeta, spec: DeploymentSpec, status: DeploymentStatus)

  datatype ObjectReference = ObjectReference(kind: string, name: string)

  /** `targetRef` may be nil in Go: `None` is nil. */
  datatype EndpointAddress = EndpointAddress(ip: string, targetRef: Option<ObjectReference>)

  datatype EndpointSubset = EndpointSubset(addresses: seq<EndpointAddress>, notReadyAddresses: seq<EndpointAddress>)

  datatype EndpointsObject = EndpointsObject(meta: ObjectMeta, subsets: seq<EndpointSubset>)

  datatype ServiceSpec = ServiceSpec(selector: Labels)

  datatype ServiceObject = ServiceObject(meta: ObjectMeta, spec: ServiceSpec)

  /** Why the API server refuses a JSON Patch on a Service selector. */
  datatype PatchError =
    | UnsupportedOp(operation: string)
    | PathOutsideSelector(path: string)
    | MissingParent(path: string)
    | MissingKey(key: string)

  /** Errors the cluster API returns; the tool passes them on unchanged. */
  datatype GatewayError =
    | NotFound(name: string)
    | AlreadyExists(name: string)
    | PatchRejected(cause: PatchError)
    | Unavailable(reason: string)
}

# devops-tool-htmx canary control, modelled in Dafny

devops-tool-htmx is a small web front end for canary releases on Kubernetes. For
one application (the `app` label) it does four things:

- it shows the application's managed Deployments, the pods behind its Service
  and whether traffic is split (`GetAppState`);
- it creates a canary Deployment from the primary with a new image tag and
  replica count (`create_canary`);
- it switches the Service selector between "main track only" and "every track"
  with a one-operation JSON Patch (`set_canary`);
- it lists the applications it knows of (`/`).

The model keeps the logic of these handlers and drops the HTTP and client
plumbing. Kubernetes objects are immutable datatypes. Each handler is a pure
function, and the results of the Kubernetes API calls are passed in as
`Result` values.

| file | module | what it holds |
|---|---|---|
| wrappers.dfy | `Wrappers` | `Option`, `Result` |
| seqs.dfy | `Seqs` | an order-preserving `Filter` and its concatenation lemma |
| objects.dfy | `Objects` | the Deployment, Service and Endpoints shapes the code reads; label names; gateway and patch errors |
| gotext.dfy | `GoText` | the Go library behaviour the code relies on: `strconv.ParseBool`, `strings.SplitN(s, sep, 2)`, `strings.ReplaceAll` on one character |
| projector.dfy | `Projector` | `GetAppState`, `asCustomDeployment`, `asCustomEndpoint` and the managed-deployment filter |
| canary.dfy | `Canary` | the canary object `create_canary` builds: name, labels, annotation, track, replicas, image |
| traffic.dfy | `Traffic` | the JSON Patch `set_canary` sends and its effect on a selector under sections 4.1 and 4.2 of RFC 6902 |
| appindex.dfy | `AppIndex` | the application index of the `/` handler |
| cluster.dfy | `Cluster` | an in-memory namespace standing in for the API server, and the `create_canary` and `set_canary` handlers over it |
| rollout.dfy | `Rollout` | one rollout end to end: read, create a canary, split traffic, restore |

## Model

| member | source | states |
|---|---|---|
| GoText.ParseBool | main.go:97 | the annotation parses to true exactly for "1", "t", "T", "TRUE", "true", "True"; to false exactly for "0", "f", "F", "FALSE", "false", "False"; anything else, including the empty value of a missing key, is a parse error |
| GoText.ParseFormatRoundTrip | main.go:227 | the "true" the canary annotation carries parses back to true |
| GoText.SplitFirst | main.go:238 | splitting on the first separator: one part equal to the whole text when there is no separator, otherwise the text before the first separator and everything after it |
| GoText.SplitJoinRoundTrip | main.go:238 | joining the parts with the separator gives back the original text |
| GoText.ReplaceAll | main.go:222 | the token keeps its length and every `_` becomes `-`, with every other character unchanged |
| Seqs.Filter | main.go:95-107 | the kept items are exactly the items that pass, and there are never more than the input |
| Seqs.FilterConcat | main.go:95-107 | filtering a concatenation is concatenating the filtered parts, so relative order is preserved |
| Seqs.FilterSnoc | main.go:104-106 | one more item at the end is kept at the end exactly when it passes |
| Projector.SelectManaged | main.go:95-107 | the loop (skip on a parse error, skip without a `track` key, keep when true) selects exactly the declarative managed filter |
| Projector.ProjectDeployments | main.go:58-71 | one summary per object, in order, carrying the name, the image of container 0, the `track` label (empty when absent), the replicas and the available replicas |
| Projector.DescriptionIsUnique | main.go:58-71 | an object has exactly one summary |
| Projector.DescriptionsOfAppend | main.go:58-71 | the summaries of a list with one more object at the end are the list's summaries followed by that object's |
| Projector.ProjectEndpoints | main.go:73-83 | one endpoint per address, in order, carrying the target pod's name and the IP |
| Projector.CanaryEnabled | main.go:123 | traffic counts as split unless the selector maps `track` to exactly "main"; a missing key counts as split |
| Projector.GetAppState | main.go:85-130 | success exactly when the list, the Endpoints get and the Service get all succeed; otherwise the first failure in that order, with no partial state; on success the managed deployments summarised in order, the first subset's addresses (none without subsets), and the split flag from the selector |
| Projector.KeptSurfaces | main.go:58-71 | every kept object has a summary under its name |
| Projector.SurfacedWasKept | main.go:95-107 | with unique names, a summary under a listed deployment's name means that deployment passed the filter |
| Projector.SurfacedIffManaged | main.go:95-107 | with unique names, a listed deployment appears in the state exactly when its annotation parses to true and it has a `track` label |
| Canary.RewriteImage | main.go:238-239 | the new image ends in ":" and the tag, and what precedes that is the text of the old image before its first ':' |
| Canary.RepoOfUnique | main.go:238 | the text before the first ':' is unique, so the rewrite is fully determined |
| Canary.RewriteKeepsTextBeforeFirstColon | main.go:238-239 | an image "repo:rest" with no ':' in repo becomes "repo:tag" |
| Canary.RewriteAppendsTagWithoutColon | main.go:238-239 | an image with no ':' gets ":" and the tag appended |
| Canary.ImageRewriteExamples | main.go:238-239 | "nginx:1.25.0-alpine" with "beta" gives "nginx:beta"; "myimage" with "v2" gives "myimage:v2" |
| Canary.RetagForgetsEarlierTag | main.go:238-239 | re-tagging a canary image is the same as tagging the original once |
| Canary.CanaryName | main.go:222 | the name starts with the application and "-canary-", then the token with every `_` turned into `-`, with nothing else added |
| Canary.CanaryObject | main.go:220-239 | the canary has the generated name; exactly the `app` and `track` labels; exactly the management annotation, set to "true"; `track` "canary" on the object, the selector and the pod template; the requested replicas; container 0 re-tagged; every other spec field and every other selector and template label as on the primary; it is managed and can be summarised |
| Canary.BuildCanary | main.go:220-239 | the handler's canary carries the `app` label "nginx" whatever the application, is named after the application, and is managed |
| Canary.BuildCanaryForApp | main.go:220-239 | the canary with its own application's `app` label, otherwise as above |
| Canary.BuildersAgreeOnNginx | main.go:224 | for application "nginx" the handler's canary and the corrected canary are the same object |
| Canary.CanarySelectorMatchesTemplate | main.go:232-234 | when the primary's selector matches its pod template, so does the canary's |
| Canary.CanaryView | main.go:58-71 | the canary is summarised with its generated name, the re-tagged image, track "canary", the requested replicas and no available replicas |
| Traffic.DecodeOp | main.go:259-269 | a patch operation is understood only as `add` or `remove` of one plain key under /spec/selector/; `add` sets that key to the value |
| Traffic.DecodeSelectorPath | main.go:262 | any plain key under /spec/selector/ decodes to that key |
| Traffic.DecodeEncodeRoundTrip | main.go:259-269 | encoding a selector change and decoding it gives the same change back |
| Traffic.TrafficPatchMeaning | main.go:259-269 | the patch has one operation: remove `track` when enabling, add `track` = "main" when disabling |
| Traffic.ApplyOp | main.go:274 | `add` on an existing selector sets or replaces the key and fails on an empty (absent) selector; `remove` deletes the key and fails when it is absent; no other key changes |
| Traffic.ApplyPatch | main.go:274 | a patch applies only when every operation is understood |
| Traffic.ApplyPatchConcat | main.go:274 | a patch applies its operations one after another and stops at the first failure |
| Traffic.ApplySingleOp | main.go:274 | a one-operation patch fails with the decoding error or applies that operation |
| Traffic.SetCanaryTraffic | main.go:256-277 | disabling succeeds exactly on a non-empty selector and pins `track` to "main"; enabling succeeds exactly when `track` is present and removes it; no other key changes; afterwards the split flag equals the request |
| Traffic.TrafficPatchHasSwitchEffect | main.go:259-277 | the patch the handler sends has exactly the switch's effect |
| Traffic.AgreeEverywhere | main.go:259-269 | two selectors that agree off `track` and on `track` are equal |
| Traffic.DisableIsIdempotent | main.go:259-266 | disabling twice leaves the selector as disabling once |
| Traffic.EnableTwiceFails | main.go:267-269 | enabling an already enabled selector is rejected |
| Traffic.EnableUndoesDisable | main.go:259-269 | on a non-empty selector without `track`, disabling then enabling restores it |
| Traffic.DisableUndoesEnable | main.go:259-269 | on a selector pinned to "main" with another key, enabling then disabling restores it |
| Traffic.DisabledSelectsOnlyMainTrack | main.go:259-266 | once disabled, the Service selects only pods labelled `track` "main" |
| Traffic.EnabledSelectsEveryTrack | main.go:267-269 | once enabled, the Service selects a pod exactly when the pod matches the other selector pairs, whatever its track |
| AppIndex.AppNames | main.go:171-181 | the index holds a name exactly when it is non-empty and some deployment carries it as its `app` label |
| AppIndex.CollectApps | main.go:170-185 | a failed list is answered with its error and no index; otherwise the listed names are exactly the index, each once |
| AppIndex.ListApps | main.go:176-185 | the listed names are exactly the index, each once, in no particular order |
| Cluster.ListByApp | main.go:86-90 | the listing holds exactly the deployments labelled with the application |
| Cluster.FindByName | main.go:215-219 | the named deployment, or NotFound when no deployment has that name |
| Cluster.Create | main.go:241-244 | AlreadyExists when the name is taken, otherwise the deployment is stored after the others |
| Cluster.ReadState | main.go:85-130 | reading an application succeeds exactly when its Service and Endpoints exist, otherwise NotFound |
| Cluster.CreateCanaryHandler | main.go:208-254 | NotFound without a primary; with a primary, the canary built from it is created, and a create error is the response with nothing changed; Services and Endpoints untouched; when something is stored, it is exactly the canary built from the primary, appended after the others, and the response is the re-read state; nothing stored means an error response |
| Cluster.SetCanaryHandler | main.go:256-290 | NotFound without a Service; a rejected patch changes nothing; otherwise only that Service's selector changes, to the switched one, and the response is the re-read state, whose split flag equals the request |
| Cluster.SwitchReplacesOnlySelector | main.go:274-277 | a successful switch replaces one Service's selector and nothing else in the namespace |
| Cluster.DisableHandlerIsIdempotent | main.go:256-290 | disabling through the handler twice leaves the namespace as disabling once |
| Cluster.ListByAppSnoc | main.go:241-248 | storing a deployment adds it to the end of its own application's listing only |
| Cluster.StoredManagedIsListed | main.go:241-248 | a stored managed deployment labelled with the application is appended to its listing and to its managed listing |
| Cluster.CorrectedCreateStores | main.go:241-244 | a successful create stores the canary after the other deployments and changes nothing else |
| Cluster.ReadDefinedBeforeStore | main.go:245-248 | what the re-read after the create dereferences exists in the state before it too |
| Cluster.CorrectedCreateShowsCanary | main.go:208-254 | with the application's own label, the response after a create is the state before with the canary's summary (generated name, re-tagged image, track "canary", requested replicas, none available) appended, the same pods and the same traffic split |
| Cluster.HardCodedAppHidesCanary | main.go:224 | for any application other than "nginx", the response after a successful create equals the state before it |
| Cluster.WebCanaryIsInvisible | main.go:224 | for application "web" the new canary is not in the application's listing |
| Cluster.CorrectedCanaryIsListed | main.go:220-248 | with the application's own label, the canary is appended to its listing and to its summarised state |
| Rollout.InitialState | main.go:85-130 | "nginx" with one primary on the main track reads back one summary, one pod and traffic not split |
| Rollout.CanaryNameSpelled | main.go:222 | application "nginx" with token "bold_turing" names the canary "nginx-canary-bold-turing" |
| Rollout.CanaryImageRetagged | main.go:238-239 | "nginx:1.25.0-alpine" with tag "canary" becomes "nginx:canary" |
| Rollout.CanaryIsProjected | main.go:58-71 | the canary is summarised as track "canary", image "nginx:canary", one replica, none available |
| Rollout.CanaryCreated | main.go:208-254 | creating the canary stores it after the primary and the response shows both summaries, the pod, and traffic not split |
| Rollout.ReadBothTracks | main.go:85-130 | a namespace with the primary and a managed companion reads back both summaries, the pod, and the split flag of its Service |
| Rollout.SwitchStep | main.go:256-277 | switching on that namespace replaces the Service's selector with the switched one |
| Rollout.SplitSelector | main.go:267-269 | enabling turns `{app: nginx, track: main}` into `{app: nginx}` |
| Rollout.RestoreSelector | main.go:259-266 | disabling turns `{app: nginx}` back into `{app: nginx, track: main}` |
| Rollout.TrafficSplit | main.go:256-290 | enabling traffic removes `track` from the Service selector and the response shows traffic split |
| Rollout.TrafficRestored | main.go:256-290 | disabling afterwards gives back the namespace and the response from right after the create |

## Left out

- HTTP routing, body and query parsing, the HX-Request header, template rendering (`renderApp`) and JSON responses are presentation. The handlers' results are the model's output.
- Kubeconfig flags, client construction and `Listen` are process start-up.
- The Kubernetes client calls are not modelled. `GetAppState` takes their results as inputs. `Cluster` is a minimal in-memory stand-in that only ever answers NotFound, AlreadyExists or PatchRejected. Transport errors and context cancellation are not modelled.
- The label selector in the list call is modelled as equality on the `app` label. The selector syntax itself is not modelled.
- `time.Sleep(100ms)` after the patch is a wait for the endpoints controller. The model does not reconcile Endpoints, so the re-read sees the Endpoints as they were.
- The random name from `namesgenerator` is the `token` parameter.
- Go panics are preconditions, not modelled behaviour. This covers nil `Spec.Replicas`, a pod template without containers, and an address without a target reference. Each is required only where the code dereferences it: on managed deployments, on the first subset's addresses, and only once every gateway call has succeeded. The one exception is the primary's first container in `create_canary` (main.go:238): `Cluster.CreateCanaryDefined` requires it on the primary whether or not the primary is managed, before the create is attempted.
- The panics at main.go:233-234 on a nil `Spec.Selector`, a nil `MatchLabels` or nil pod template labels are not modelled, because a nil map is modelled as an empty map and writing the `track` key into it succeeds.
- Nil and empty maps are not distinguished.
- Cluster applies each handler's gateway calls as one step: no other request or writer changes the namespace between the write and the re-read. In the program, other requests run concurrently, notably during the 100 ms sleep at main.go:279. So the split flag in Cluster.SetCanaryHandler's response, and the re-read responses of Cluster.CreateCanaryHandler, Cluster.CorrectedCreateShowsCanary and the Rollout scenario, hold of the stand-in only.
- Cluster keeps deployments in creation order and lists them in that order. The API server lists by name, so "appended" and "after the others" in Cluster.Create, Cluster.CreateCanaryHandler, Cluster.CorrectedCreateStores, Cluster.CorrectedCreateShowsCanary, Cluster.StoredManagedIsListed, Cluster.CorrectedCanaryIsListed, Cluster.ListByAppSnoc and Rollout.CanaryCreated hold of the stand-in only. The code itself fixes no order for the listing at main.go:86-90.
- The wire form of the patch uses JSON Pointer (RFC 6901). Its `~0`/`~1` escapes are not modelled. A path other than one plain key under /spec/selector/ is rejected as outside the selector, and operations other than `add` and `remove` are unsupported.
- Traffic.EnableTwiceFails: enabling an application that is already enabled is not a no-op. The handler sends `remove`, which section 4.2 of RFC 6902 makes an error when the key is absent. The model follows the code.
- Traffic.ApplyOp: an empty selector is treated as absent. Go drops an empty selector from the Service JSON, so an `add` under it has no parent (section 4.1 of RFC 6902) and fails.
- Scaling a canary or deleting it are not operations of the code, so the model has neither.

## Findings

| source | as written | input that shows it | evidently intended | confidence | as-written member | corrected member |
|---|---|---|---|---|---|---|
| main.go:224 | the canary's `app` label is the literal "nginx" | application "web": the canary is created, but the `app=web` listing never contains it, so the response after the create equals the state before it | the canary carries the application's own `app` label, so it is listed and summarised for its application | not executed | Cluster.HardCodedAppHidesCanary (with Canary.BuildCanary and Cluster.WebCanaryIsInvisible) | Cluster.CorrectedCreateShowsCanary (with Canary.BuildCanaryForApp and Cluster.CorrectedCanaryIsListed) |

/**
 * Canary construction, the pure part of the `create_canary` handler: a new
 * Deployment derived from the primary's spec.
 */
module Canary {
  import opened Wrappers
  import opened Objects
  import GoText
  import Projector

  /** The value the handler writes into the canary's `app` label, whatever the application. */
  const HardCodedApp := "nginx"
  const CanaryInfix := "-canary-"

  /** The request body: the new image tag and the canary's replica count. */
  datatype CanaryRequest = CanaryRequest(tag: string, replicas: Int32)

  /** `repo` is the part of `image` before its first ':', or all of it when there is none. */
  predicate IsRepoOf(repo: string, image: string) {
    && |repo| <= |image|
    && repo == image[..|repo|]
    && (forall j :: 0 <= j < |repo| ==> image[j] != ':')
    && (|repo| < |image| ==> image[|repo|] == ':')
  }

  /** There is only one such part. */
  lemma RepoOfUnique(a: string, b: string, image: string)
    requires IsRepoOf(a, image) && IsRepoOf(b, image)
    ensures a == b
  {
  }

  /** The image reference with everything after its first ':' replaced by `tag` (no check that `tag` is non-empty). */
  function RewriteImage(image: string, tag: string): (r: string)
    ensures |r| >= |tag| + 1
    ensures r[|r| - |tag| - 1..] == ":" + tag
    ensures IsRepoOf(r[..|r| - |tag| - 1], image)
  {
    var parts := GoText.SplitFirst(image, ':');
    var r := parts[0] + ":" + tag;
    assert r[..|r| - |tag| - 1] == parts[0];
    r
  }

  /** When the image has a ':', the text before the first one is kept. */
  lemma RewriteKeepsTextBeforeFirstColon(repo: string, rest: string, tag: string)
    requires ':' !in repo
    ensures RewriteImage(repo + ":" + rest, tag) == repo + ":" + tag
  {
    var image := repo + ":" + rest;
    var r := RewriteImage(image, tag);
    assert IsRepoOf(repo, image) by {
      assert image[|repo|] == ':';
      assert image[..|repo|] == repo;
    }
    RepoOfUnique(r[..|r| - |tag| - 1], repo, image);
    assert r == r[..|r| - |tag| - 1] + ":" + tag;
  }

  /** When the image has no ':', the whole reference gets the tag appended. */
  lemma RewriteAppendsTagWithoutColon(image: string, tag: string)
    requires ':' !in image
    ensures RewriteImage(image, tag) == image + ":" + tag
  {
    var r := RewriteImage(image, tag);
    assert IsRepoOf(image, image);
    RepoOfUnique(r[..|r| - |tag| - 1], image, image);
    assert r == r[..|r| - |tag| - 1] + ":" + tag;
  }

  lemma ImageRewriteExamples()
    ensures RewriteImage("nginx:1.25.0-alpine", "beta") == "nginx:beta"
    ensures RewriteImage("myimage", "v2") == "myimage:v2"
  {
    assert "nginx:1.25.0-alpine" == "nginx" + ":" + "1.25.0-alpine";
    RewriteKeepsTextBeforeFirstColon("nginx", "1.25.0-alpine", "beta");
    RewriteAppendsTagWithoutColon("myimage", "v2");
  }

  /** Re-tagging the canary's image again only depends on the last tag. */
  lemma RetagForgetsEarlierTag(image: string, first: string, second: string)
    ensures RewriteImage(RewriteImage(image, first), second) == RewriteImage(image, second)
  {
    var once := RewriteImage(image, first);
    var repo := once[..|once| - |first| - 1];
    var twice := RewriteImage(once, second);
    var repo2 := twice[..|twice| - |second| - 1];
    var direct := RewriteImage(image, second);
    var repo3 := direct[..|direct| - |second| - 1];
    assert once == repo + ":" + first;
    assert IsRepoOf(repo, once) by {
      assert once[|repo|] == ':';
    }
    RepoOfUnique(repo, repo2, once);
    RepoOfUnique(repo, repo3, image);
    assert twice == repo2 + ":" + second;
    assert direct == repo3 + ":" + second;
  }

  /** `<app>-canary-<token>` with every '_' of the token turned into '-'. */
  function CanaryName(app: string, token: string): (name: string)
    ensures app + CanaryInfix <= name
    ensures |name| == |app| + |CanaryInfix| + |token|
    ensures '_' !in name[|app| + |CanaryInfix|..]
    ensures forall i :: 0 <= i < |token| && token[i] != '_' ==> name[|app| + |CanaryInfix| + i] == token[i]
    ensures forall i :: 0 <= i < |token| && token[i] == '_' ==> name[|app| + |CanaryInfix| + i] == '-'
  {
    var suffix := GoText.ReplaceAll(token, '_', '-');
    var name := app + CanaryInfix + suffix;
    assert name[|app| + |CanaryInfix|..] == suffix;
    name
  }

  /** Every field of the spec other than replicas, the `track` labels and the first image is the primary's. */
  predicate KeepsOtherSpecFields(primary: DeploymentSpec, canary: DeploymentSpec) {
    && canary.matchLabels.Keys - {TrackLabel} == primary.matchLabels.Keys - {TrackLabel}
    && (forall k :: k != TrackLabel && k in primary.matchLabels ==> k in canary.matchLabels && canary.matchLabels[k] == primary.matchLabels[k])
    && canary.template.labels.Keys - {TrackLabel} == primary.template.labels.Keys - {TrackLabel}
    && (forall k :: k != TrackLabel && k in primary.template.labels ==> k in canary.template.labels && canary.template.labels[k] == primary.template.labels[k])
    && |canary.template.containers| == |primary.template.containers|
    && (forall i :: 1 <= i < |primary.template.containers| ==> canary.template.containers[i] == primary.template.containers[i])
    && (|primary.template.containers| > 0 ==>
          && canary.template.containers[0].name == primary.template.containers[0].name
          && canary.template.containers[0].env == primary.template.containers[0].env)
    && canary.template.volumes == primary.template.volumes
    && canary.strategy == primary.strategy
    && canary.minReadySeconds == primary.minReadySeconds
  }

  /**
   * The canary object, with the `app` label value as a parameter: a copy of the
   * primary's spec with `track` set to "canary" in the object labels, the
   * selector and the pod template, the requested replica count, the re-tagged
   * first image, fresh labels and the opt-in annotation.
   */
  function CanaryObject(appLabel: string, app: string, primary: DeploymentObject, req: CanaryRequest, token: string)
    : (c: DeploymentObject)
    requires |primary.spec.template.containers| > 0
    ensures c.meta.name == CanaryName(app, token)
    ensures c.meta.labels.Keys == {AppLabel, TrackLabel} && c.meta.labels[AppLabel] == appLabel
    ensures c.meta.annotations.Keys == {ManagedAnnotation} && c.meta.annotations[ManagedAnnotation] == GoText.FormatBool(true)
    ensures TrackLabel in c.meta.labels && TrackLabel in c.spec.matchLabels && TrackLabel in c.spec.template.labels
    ensures c.meta.labels[TrackLabel] == c.spec.matchLabels[TrackLabel] == c.spec.template.labels[TrackLabel] == CanaryTrack
    ensures c.spec.replicas == Some(req.replicas)
    ensures KeepsOtherSpecFields(primary.spec, c.spec)
    ensures c.spec.template.containers[0].image == RewriteImage(primary.spec.template.containers[0].image, req.tag)
    ensures c.status.availableReplicas == 0
    ensures Projector.IsManaged(c) && Projector.Projectable(c)
  {
    var spec := primary.spec;
    var first := spec.template.containers[0];
    var containers := spec.template.containers[0 := first.(image := RewriteImage(first.image, req.tag))];
    DeploymentObject(
      ObjectMeta(
        CanaryName(app, token),
        map[AppLabel := appLabel][TrackLabel := CanaryTrack],
        map[ManagedAnnotation := "true"]),
      spec.(
        matchLabels := spec.matchLabels[TrackLabel := CanaryTrack],
        template := spec.template.(labels := spec.template.labels[TrackLabel := CanaryTrack], containers := containers),
        replicas := Some(req.replicas)),
      DeploymentStatus(0))
  }

  /** The canary as the handler builds it: its `app` label is always "nginx". */
  function BuildCanary(app: string, primary: DeploymentObject, req: CanaryRequest, token: string): (c: DeploymentObject)
    requires |primary.spec.template.containers| > 0
    ensures AppLabel in c.meta.labels && c.meta.labels[AppLabel] == HardCodedApp
    ensures c.meta.name == CanaryName(app, token) && Projector.IsManaged(c)
  {
    CanaryObject(HardCodedApp, app, primary, req, token)
  }

  /** The canary as evidently intended: labelled with the application it was made for. */
  function BuildCanaryForApp(app: string, primary: DeploymentObject, req: CanaryRequest, token: string): (c: DeploymentObject)
    requires |primary.spec.template.containers| > 0
    ensures AppLabel in c.meta.labels && c.meta.labels[AppLabel] == app
    ensures c.meta.name == CanaryName(app, token) && Projector.IsManaged(c)
  {
    CanaryObject(app, app, primary, req, token)
  }

  /** The two agree for the one application name the handler was written for. */
  lemma BuildersAgreeOnNginx(primary: DeploymentObject, req: CanaryRequest, token: string)
    requires |primary.spec.template.containers| > 0
    ensures BuildCanary(HardCodedApp, primary, req, token) == BuildCanaryForApp(HardCodedApp, primary, req, token)
  {
  }

  /**
   * The API server requires a Deployment's selector to match its pod template.
   * If the primary's does, the canary's does too, because `track` is set to the
   * same value on both sides.
   */
  lemma CanarySelectorMatchesTemplate(appLabel: string, app: string, primary: DeploymentObject, req: CanaryRequest, token: string)
    requires |primary.spec.template.containers| > 0
    requires Selects(primary.spec.matchLabels, primary.spec.template.labels)
    ensures var c := CanaryObject(appLabel, app, primary, req, token);
      Selects(c.spec.matchLabels, c.spec.template.labels)
  {
  }

  /** What the projection reports for a freshly built canary. */
  lemma CanaryView(appLabel: string, app: string, primary: DeploymentObject, req: CanaryRequest, token: string)
    requires |primary.spec.template.containers| > 0
    ensures Projector.Describes(
      Projector.Deployment(CanaryName(app, token), RewriteImage(primary.spec.template.containers[0].image, req.tag),
                           CanaryTrack, req.replicas, 0),
      CanaryObject(appLabel, app, primary, req, token))
  {
  }
}

/**
 * The traffic switch, the pure part of the `set_canary` handler: a one-operation
 * JSON Patch (RFC 6902) on the Service's `/spec/selector/track`, and what the
 * API server does with it.
 */
module Traffic {
  import opened Wrappers
  import opened Objects
  import Projector

  /** The handler's patch operation as it is marshalled: every member is always present. */
  datatype JsonPatchOp = JsonPatchOp(op: string, path: string, from: string, value: string)

  const SelectorPath := "/spec/selector/"
  const TrackPath := "/spec/selector/track"

  /** The patch the handler sends: `add` track=main to pin traffic, turned into `remove` to split it. */
  function TrafficPatch(enabled: bool): seq<JsonPatchOp> {
    [JsonPatchOp(if enabled then "remove" else "add", TrackPath, "", MainTrack)]
  }

  /** A patch operation on one selector key, as section 4.1 (add) and section 4.2 (remove) of RFC 6902 define them. */
  datatype SelectorOp = Add(key: string, value: string) | Remove(key: string)

  /**
   * A selector key is addressed as `/spec/selector/<key>`. Keys holding '/' or
   * '~' need the escapes of RFC 6901, which this model does not decode.
   */
  predicate PlainKey(key: string) {
    '/' !in key && '~' !in key
  }

  /**
   * Reading one marshalled operation: members an operation does not define are
   * ignored (section 4 of RFC 6902); only paths to a selector key are modelled.
   */
  function DecodeOp(w: JsonPatchOp): (r: Result<SelectorOp, PatchError>)
    ensures r.Success? ==> w.path == SelectorPath + r.value.key && PlainKey(r.value.key)
    ensures r.Success? ==> (r.value.Add? <==> w.op == "add") && (r.value.Remove? <==> w.op == "remove")
    ensures r.Success? && r.value.Add? ==> r.value.value == w.value
  {
    if w.op != "add" && w.op != "remove" then Failure(UnsupportedOp(w.op))
    else if !(SelectorPath <= w.path) || !PlainKey(w.path[|SelectorPath|..]) then Failure(PathOutsideSelector(w.path))
    else
      var key := w.path[|SelectorPath|..];
      assert w.path == SelectorPath + key;
      if w.op == "add" then Success(Add(key, w.value)) else Success(Remove(key))
  }

  /** The marshalled form of a selector operation. */
  function EncodeOp(change: SelectorOp): JsonPatchOp {
    if change.Add? then JsonPatchOp("add", SelectorPath + change.key, "", change.value)
    else JsonPatchOp("remove", SelectorPath + change.key, "", "")
  }

  /** Any operation on `/spec/selector/<key>` reads back as that key, whatever its unused members hold. */
  lemma DecodeSelectorPath(kind: string, key: string, from: string, value: string)
    requires kind == "add" || kind == "remove"
    requires PlainKey(key)
    ensures DecodeOp(JsonPatchOp(kind, SelectorPath + key, from, value))
         == Success(if kind == "add" then Add(key, value) else Remove(key))
  {
    assert (SelectorPath + key)[|SelectorPath|..] == key;
  }

  lemma DecodeEncodeRoundTrip(change: SelectorOp)
    requires PlainKey(change.key)
    ensures DecodeOp(EncodeOp(change)) == Success(change)
  {
    if change.Add? {
      DecodeSelectorPath("add", change.key, "", change.value);
    } else {
      DecodeSelectorPath("remove", change.key, "", "");
    }
  }

  /** The handler's patch reads as `add track=main` when disabling and `remove track` when enabling. */
  lemma TrafficPatchMeaning(enabled: bool)
    ensures |TrafficPatch(enabled)| == 1
    ensures DecodeOp(TrafficPatch(enabled)[0])
         == Success(if enabled then Remove(TrackLabel) else Add(TrackLabel, MainTrack))
  {
    assert TrackPath == SelectorPath + TrackLabel;
    assert PlainKey(TrackLabel);
    DecodeSelectorPath(if enabled then "remove" else "add", TrackLabel, "", MainTrack);
  }

  /** `a` and `b` hold the same pairs apart from `key`. */
  predicate AgreeExcept(a: Labels, b: Labels, key: string) {
    && a.Keys - {key} == b.Keys - {key}
    && forall k :: k in a && k in b && k != key ==> a[k] == b[k]
  }

  /**
   * Applying one operation to the selector. `add` creates or replaces the member
   * but needs the selector object itself; an empty selector is left out of the
   * Service's JSON, so there is nothing to add to. `remove` needs the member.
   */
  function ApplyOp(selector: Labels, change: SelectorOp): (r: Result<Labels, PatchError>)
    ensures change.Add? ==> (r.Success? <==> |selector| > 0)
    ensures change.Remove? ==> (r.Success? <==> change.key in selector)
    ensures r.Success? && change.Add? ==> change.key in r.value && r.value[change.key] == change.value
    ensures r.Success? && change.Remove? ==> change.key !in r.value
    ensures r.Success? ==> AgreeExcept(r.value, selector, change.key)
  {
    match change
    case Add(key, value) =>
      if |selector| == 0 then Failure(MissingParent(SelectorPath + key)) else Success(selector[key := value])
    case Remove(key) =>
      if key in selector then Success(selector - {key}) else Failure(MissingKey(key))
  }

  /** A patch applies its operations in order and fails as a whole if any one fails (section 3 of RFC 6902). */
  function ApplyPatch(selector: Labels, patch: seq<JsonPatchOp>): (r: Result<Labels, PatchError>)
    ensures r.Success? ==> forall i :: 0 <= i < |patch| ==> DecodeOp(patch[i]).Success?
    decreases |patch|
  {
    if |patch| == 0 then Success(selector)
    else
      var first :- DecodeOp(patch[0]);
      var next :- ApplyOp(selector, first);
      ApplyPatch(next, patch[1..])
  }

  /** Applying `a + b` is applying `a`, then `b` to its result. */
  lemma {:induction false} ApplyPatchConcat(selector: Labels, a: seq<JsonPatchOp>, b: seq<JsonPatchOp>)
    ensures ApplyPatch(selector, a + b)
         == (match ApplyPatch(selector, a)
             case Success(m) => ApplyPatch(m, b)
             case Failure(e) => Failure(e))
    decreases |a|
  {
    if |a| == 0 {
      assert a + b == b;
    } else {
      assert (a + b)[0] == a[0];
      assert (a + b)[1..] == a[1..] + b;
      match DecodeOp(a[0])
      case Failure(_) =>
      case Success(first) =>
        match ApplyOp(selector, first)
        case Failure(_) =>
        case Success(next) => ApplyPatchConcat(next, a[1..], b);
    }
  }

  /** A one-operation patch is that operation. */
  lemma ApplySingleOp(selector: Labels, w: JsonPatchOp)
    ensures DecodeOp(w).Failure? ==> ApplyPatch(selector, [w]) == Failure(DecodeOp(w).error)
    ensures DecodeOp(w).Success? ==> ApplyPatch(selector, [w]) == ApplyOp(selector, DecodeOp(w).value)
  {
    assert [w][1..] == [];
  }

  /** The selector operation the handler means: pin to the main track, or drop the pin. */
  function SwitchOp(enabled: bool): SelectorOp {
    if enabled then Remove(TrackLabel) else Add(TrackLabel, MainTrack)
  }

  /** The selector after the switch, or the API server's refusal. */
  function SetCanaryTraffic(selector: Labels, enabled: bool): (r: Result<Labels, PatchError>)
    ensures !enabled ==> (r.Success? <==> |selector| > 0)
    ensures enabled ==> (r.Success? <==> TrackLabel in selector)
    ensures r.Success? && !enabled ==> TrackLabel in r.value && r.value[TrackLabel] == MainTrack
    ensures r.Success? && enabled ==> TrackLabel !in r.value
    ensures r.Success? ==> AgreeExcept(r.value, selector, TrackLabel)
    ensures r.Success? ==> Projector.CanaryEnabled(r.value) == enabled
  {
    ApplyOp(selector, SwitchOp(enabled))
  }

  /** The patch the handler marshals has exactly that effect once the API server applies it. */
  lemma TrafficPatchHasSwitchEffect(selector: Labels, enabled: bool)
    ensures ApplyPatch(selector, TrafficPatch(enabled)) == SetCanaryTraffic(selector, enabled)
  {
    var patch := TrafficPatch(enabled);
    TrafficPatchMeaning(enabled);
    ApplySingleOp(selector, patch[0]);
    assert patch == [patch[0]];
  }

  /** Two selectors that agree apart from `key`, and on `key` too, are the same. */
  lemma AgreeEverywhere(a: Labels, b: Labels, key: string)
    requires AgreeExcept(a, b, key)
    requires key in a <==> key in b
    requires key in a ==> a[key] == b[key]
    ensures a == b
  {
    forall k
      ensures k in a <==> k in b
    {
      if k != key {
        assert k in a.Keys - {key} <==> k in b.Keys - {key};
      }
    }
    assert a.Keys == b.Keys;
  }

  /** Disabling twice leaves the selector as disabling once. */
  lemma DisableIsIdempotent(selector: Labels)
    requires SetCanaryTraffic(selector, false).Success?
    ensures SetCanaryTraffic(SetCanaryTraffic(selector, false).value, false) == SetCanaryTraffic(selector, false)
  {
    var once := SetCanaryTraffic(selector, false).value;
    var twice := SetCanaryTraffic(once, false);
    assert TrackLabel in once;
    assert twice.Success?;
    AgreeEverywhere(twice.value, once, TrackLabel);
  }

  /** Enabling twice is not a no-op: the second `remove` finds no `track` key and is refused. */
  lemma EnableTwiceFails(selector: Labels)
    requires SetCanaryTraffic(selector, true).Success?
    ensures SetCanaryTraffic(SetCanaryTraffic(selector, true).value, true).Failure?
  {
  }

  /** Enabling undoes disabling on a selector that had no `track` key. */
  lemma EnableUndoesDisable(selector: Labels)
    requires |selector| > 0 && TrackLabel !in selector
    ensures SetCanaryTraffic(selector, false).Success?
    ensures SetCanaryTraffic(SetCanaryTraffic(selector, false).value, true) == Success(selector)
  {
    var pinned := SetCanaryTraffic(selector, false).value;
    var back := SetCanaryTraffic(pinned, true);
    assert back.Success?;
    assert AgreeExcept(back.value, selector, TrackLabel);
    AgreeEverywhere(back.value, selector, TrackLabel);
  }

  /** Disabling undoes enabling on a selector pinned to the main track that selects on something else too. */
  lemma DisableUndoesEnable(selector: Labels)
    requires TrackLabel in selector && selector[TrackLabel] == MainTrack
    requires |selector| > 1
    ensures SetCanaryTraffic(selector, true).Success?
    ensures SetCanaryTraffic(SetCanaryTraffic(selector, true).value, false) == Success(selector)
  {
    var split := SetCanaryTraffic(selector, true).value;
    var others := selector.Keys - {TrackLabel};
    assert |others| == |selector.Keys| - 1;
    var k :| k in others;
    assert k in split.Keys;
    assert |split.Keys| > 0 by {
      assert {k} <= split.Keys;
    }
    var back := SetCanaryTraffic(split, false);
    assert back.Success?;
    assert AgreeExcept(back.value, split, TrackLabel);
    assert AgreeExcept(back.value, selector, TrackLabel);
    AgreeEverywhere(back.value, selector, TrackLabel);
  }

  /** Once disabled, the Service only selects pods of the main track. */
  lemma DisabledSelectsOnlyMainTrack(selector: Labels, pod: Labels)
    requires SetCanaryTraffic(selector, false).Success?
    requires Selects(SetCanaryTraffic(selector, false).value, pod)
    ensures TrackLabel in pod && pod[TrackLabel] == MainTrack
  {
  }

  /** Once enabled, the Service selects a pod exactly when it matches every other selector pair, whatever its track. */
  lemma EnabledSelectsEveryTrack(selector: Labels, pod: Labels)
    requires SetCanaryTraffic(selector, true).Success?
    ensures Selects(SetCanaryTraffic(selector, true).value, pod)
        <==> Selects(selector - {TrackLabel}, pod)
  {
    var enabled := SetCanaryTraffic(selector, true).value;
    assert enabled == selector - {TrackLabel};
  }
}

/**
 * The webhook's mutate: the decision whether and how to change a Pod under admission.
 * Decoding the Pod, the label service and encoding the patch are collaborators whose
 * outcomes are inputs.
 */
module Admission {
  import opened Wrappers
  import opened Strings
  import opened JsonPointer
  import opened JsonPatch
  import opened PatchBuilder

  /** The prefix of the label key that marks a Pod of a rollout. */
  const MarkerPrefix: string := "rollouts-pod-template-hash"

  const PodKind: string := "Pod"

  /** What the label service returns in this version: a fixed map and no error. */
  const MockLabelSource: Result<LabelMap, string> := Success(map["team" := "microservices"])

  /** The raw object of a request, decoded as a Pod or not (the decoder's error text). */
  datatype PodObject = Decoded(labels: Option<LabelMap>) | Undecodable(error: string)

  datatype AdmissionRequest = AdmissionRequest(uid: string, kind: string, pod: PodObject)

  datatype Status = Status(message: string)

  datatype PatchType = JSONPatch

  /** An admission response; `patch` is the patch before it is encoded. */
  datatype AdmissionResponse = AdmissionResponse(
    uid: string,
    allowed: bool,
    result: Option<Status>,
    patch: Option<seq<PatchOperation>>,
    patchType: Option<PatchType>)

  /** The envelope written back: the response inside apiVersion and kind. */
  datatype ReviewEnvelope = ReviewEnvelope(apiVersion: string, kind: string, response: AdmissionResponse)

  /**
   * What the webhook depends on but does not compute: the label service's answer, whether
   * json.Marshal encodes a patch (None) or fails with an error text, and whether it encodes
   * the review envelope.
   */
  datatype Collaborators = Collaborators(
    labelSource: Result<LabelMap, string>,
    marshalPatch: seq<PatchOperation> -> Option<string>,
    marshalReview: ReviewEnvelope -> bool)

  /** Admit without change; the UID is filled in by the caller. */
  const Allow: AdmissionResponse := AdmissionResponse("", true, None, None, None)

  /** Refuse admission with a message and no patch. */
  function Deny(message: string): AdmissionResponse {
    AdmissionResponse("", false, Some(Status(message)), None, None)
  }

  /** The shape the API server relies on: a refusal says why and carries no patch; a patch is admitted as a JSON Patch. */
  predicate WellFormed(r: AdmissionResponse) {
    && (!r.allowed ==> r.result.Some? && |r.result.value.message| > 0 && r.patch.None?)
    && (r.patch.Some? ==> r.allowed && r.patchType == Some(JSONPatch))
  }

  /** The admission predicate: some label key starts with the marker prefix. */
  ghost predicate HasMarker(labels: Option<LabelMap>) {
    exists key :: key in Labels(labels) && HasPrefix(key, MarkerPrefix)
  }

  /** The search loop of mutate: it ranges over the Pod's labels and stops at the first marker key. */
  method FindMarker(labels: Option<LabelMap>) returns (found: bool)
    ensures found <==> HasMarker(labels)
  {
    found := false;
    var remaining := Labels(labels).Keys;
    while remaining != {}
      invariant remaining <= Labels(labels).Keys
      invariant forall key :: key in Labels(labels) && key !in remaining ==> !HasPrefix(key, MarkerPrefix)
      decreases remaining
    {
      var key :| key in remaining;
      if HasPrefix(key, MarkerPrefix) {
        found := true;
        break;
      }
      remaining := remaining - {key};
    }
  }

  /** The decision mutate takes, for a given order in which the desired labels are visited. */
  ghost function Decision(request: AdmissionRequest, env: Collaborators, visits: seq<(string, string)>): AdmissionResponse {
    if request.kind != PodKind then Allow
    else match request.pod
      case Undecodable(e) => Deny("Could not unmarshal Pod: " + e)
      case Decoded(labels) =>
        if !HasMarker(labels) then Allow
        else match env.labelSource
          case Failure(e) => Deny("Error retrieving labels from API: " + e)
          case Success(_) =>
            var patch := PatchFor(labels, visits);
            match env.marshalPatch(patch)
              case Some(e) => Deny("Could not marshal JSON patch: " + e)
              case None => AdmissionResponse("", true, None, Some(patch), Some(JSONPatch))
  }

  /** `visits` is one run of the range over the labels the service returned. */
  ghost predicate VisitsLabelSource(env: Collaborators, visits: seq<(string, string)>) {
    env.labelSource.Success? && Enumerates(visits, env.labelSource.value)
  }

  /** The request reaches the patch loop: a decoded, marked Pod and a label service that answered. */
  ghost predicate BuildsPatch(request: AdmissionRequest, env: Collaborators) {
    request.kind == PodKind && request.pod.Decoded? && HasMarker(request.pod.labels) && env.labelSource.Success?
  }

  /** mutate: the decision for one admission request. */
  method Mutate(request: AdmissionRequest, env: Collaborators)
    returns (response: AdmissionResponse, ghost visits: seq<(string, string)>)
    ensures response == Decision(request, env, visits)
    ensures response.patch.Some? ==> VisitsLabelSource(env, visits)
    ensures BuildsPatch(request, env) ==> VisitsLabelSource(env, visits)
    ensures WellFormed(response)
    ensures request.kind != PodKind ==> response == Allow
    ensures request.kind == PodKind && request.pod.Decoded? && !HasMarker(request.pod.labels) ==> response == Allow
    ensures response.patch.Some? ==>
      && request.pod.Decoded? && request.pod.labels.Some? && env.labelSource.Success?
      && ApplyPatch(request.pod.labels, response.patch.value)
           == Success(Some(request.pod.labels.value + env.labelSource.value))
  {
    visits := [];
    if request.kind != PodKind {
      return Allow, visits;
    }
    match request.pod
    case Undecodable(e) =>
      response := Deny("Could not unmarshal Pod: " + e);
    case Decoded(labels) =>
      var found := FindMarker(labels);
      if !found {
        return Allow, visits;
      }
      match env.labelSource
      case Failure(e) =>
        response := Deny("Error retrieving labels from API: " + e);
      case Success(desired) =>
        var patch;
        patch, visits := BuildPatch(labels, desired);
        match env.marshalPatch(patch)
        case Some(e) =>
          response := Deny("Could not marshal JSON patch: " + e);
        case None =>
          response := AdmissionResponse("", true, None, Some(patch), Some(JSONPatch));
          PatchNeverCreatesLabels(request, env, visits);
  }

  /** Every decision is well formed: a refusal carries a message and no patch, a patch is admitted. */
  lemma DecisionWellFormed(request: AdmissionRequest, env: Collaborators, visits: seq<(string, string)>)
    ensures WellFormed(Decision(request, env, visits))
  {
  }

  /** Objects other than Pods are admitted unchanged, with no message. */
  lemma NonPodAdmitted(request: AdmissionRequest, env: Collaborators, visits: seq<(string, string)>)
    requires request.kind != PodKind
    ensures var r := Decision(request, env, visits);
      r.allowed && r.patch.None? && r.result.None?
  {
  }

  /**
   * A Pod without a marker label is admitted unchanged whatever the label service would
   * return; that includes a Pod with no labels map at all.
   */
  lemma UnmarkedPodAdmitted(request: AdmissionRequest, env: Collaborators, visits: seq<(string, string)>)
    requires request.kind == PodKind && request.pod.Decoded? && !HasMarker(request.pod.labels)
    ensures Decision(request, env, visits) == Allow
  {
  }

  /** No labels map means no marker. */
  lemma NilLabelsUnmarked()
    ensures !HasMarker(None)
  {
  }

  /**
   * A patch is only ever built for a Pod that has a labels map: the leading `add
   * /metadata/labels {}` is never emitted, and every operation targets one label below it.
   */
  lemma PatchNeverCreatesLabels(request: AdmissionRequest, env: Collaborators, visits: seq<(string, string)>)
    requires Decision(request, env, visits).patch.Some?
    ensures request.pod.Decoded? && request.pod.labels.Some?
    ensures forall op :: op in Decision(request, env, visits).patch.value ==> op.path != LabelsPath
    ensures VisitsLabelSource(env, visits) ==>
      forall op :: op in Decision(request, env, visits).patch.value ==>
        ParseTarget(op.path).LabelMember? && ParseTarget(op.path).key in env.labelSource.value
  {
    NilLabelsUnmarked();
    PatchShape(request.pod.labels, visits);
    var p := Decision(request, env, visits).patch.value;
    assert p == LabelOps(request.pod.labels, visits);
    if VisitsLabelSource(env, visits) {
      PatchTargetsDesiredLabels(request.pod.labels, env.labelSource.value, visits);
    }
  }

  /**
   * The patch of an admitted marked Pod, applied to its labels, overrides them with the
   * labels the service returned, and applying it once more changes nothing.
   */
  lemma AdmittedPatchMerges(request: AdmissionRequest, env: Collaborators, visits: seq<(string, string)>)
    requires Decision(request, env, visits).patch.Some? && VisitsLabelSource(env, visits)
    ensures var labels := request.pod.labels;
      var merged := Labels(labels) + env.labelSource.value;
      var patch := Decision(request, env, visits).patch.value;
      && ApplyPatch(labels, patch) == Success(Some(merged))
      && ApplyPatch(Some(merged), patch) == Success(Some(merged))
  {
    PatchMerges(request.pod.labels, env.labelSource.value, visits);
    PatchIdempotent(request.pod.labels, env.labelSource.value, visits);
  }

  /**
   * A marked Pod without a `team` label, with the label service of this version: the patch
   * is the one `add` of `team`, whichever way the range goes.
   */
  lemma TeamLabelAdded(visits: seq<(string, string)>, marshalReview: ReviewEnvelope -> bool)
    requires Enumerates(visits, MockLabelSource.value)
    ensures
      var request := AdmissionRequest("uid", PodKind, Decoded(Some(map["rollouts-pod-template-hash-foo" := "x"])));
      var env := Collaborators(MockLabelSource, _ => None, marshalReview);
      Decision(request, env, visits)
        == AdmissionResponse("", true, None,
             Some([PatchOperation(Add, "/metadata/labels/team", Text("microservices"))]), Some(JSONPatch))
  {
    var labels := Some(map["rollouts-pod-template-hash-foo" := "x"]);
    assert HasPrefix("rollouts-pod-template-hash-foo", MarkerPrefix);
    assert HasMarker(labels);
    EnumeratesSize(visits, MockLabelSource.value);
    assert visits == [("team", "microservices")];
    assert ReplaceChar("team", '~', "~0") == "team";
    assert ReplaceChar("team", '/', "~1") == "team";
    assert LabelPath("team") == "/metadata/labels/team";
    assert LabelOps(labels, visits) == [OpFor(labels, "team", "microservices")];
    assert PatchFor(labels, visits) == [PatchOperation(Add, "/metadata/labels/team", Text("microservices"))];
  }
}

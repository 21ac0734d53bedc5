/**
 * The patch the webhook builds for a Pod it mutates: an optional leading operation that
 * creates the labels map, then one `add` or `replace` per desired label, in the order in
 * which Go's range over the desired map happens to visit its entries.
 */
module PatchBuilder {
  import opened Wrappers
  import opened JsonPointer
  import opened JsonPatch

  /** The leading operation emitted when the Pod has no labels map: `add /metadata/labels {}`. */
  const CreateLabels: PatchOperation := PatchOperation(Add, LabelsPath, EmptyObject)

  /** The operation for one desired label: `replace` if the Pod already has the key, else `add`. */
  function OpFor(existing: Option<LabelMap>, key: string, value: string): PatchOperation {
    var op := if existing.Some? && key in existing.value then Replace else Add;
    PatchOperation(op, LabelPath(key), Text(value))
  }

  /** One operation per visited `(key, value)` entry, in visiting order. */
  function LabelOps(existing: Option<LabelMap>, visits: seq<(string, string)>): (ops: seq<PatchOperation>)
    ensures |ops| == |visits|
    decreases |visits|
  {
    if visits == [] then []
    else [OpFor(existing, visits[0].0, visits[0].1)] + LabelOps(existing, visits[1..])
  }

  /** The whole patch for a given visiting order of the desired labels. */
  function PatchFor(existing: Option<LabelMap>, visits: seq<(string, string)>): seq<PatchOperation> {
    (if existing.None? then [CreateLabels] else []) + LabelOps(existing, visits)
  }

  /** `visits` lists every entry of `desired` exactly once: one run of Go's range over a map. */
  ghost predicate Enumerates(visits: seq<(string, string)>, desired: LabelMap) {
    && (forall i :: 0 <= i < |visits| ==> visits[i].0 in desired && desired[visits[i].0] == visits[i].1)
    && (forall k :: k in desired ==> exists i :: 0 <= i < |visits| && visits[i].0 == k)
    && (forall i, j :: 0 <= i < j < |visits| ==> visits[i].0 != visits[j].0)
  }

  /**
   * The loop of the webhook that turns the desired labels into patch operations. The map is
   * visited in an unspecified order; `visits` is the order this run took.
   */
  method BuildPatch(existing: Option<LabelMap>, desired: LabelMap)
    returns (patches: seq<PatchOperation>, ghost visits: seq<(string, string)>)
    ensures Enumerates(visits, desired)
    ensures patches == PatchFor(existing, visits)
    ensures |patches| == |desired| + (if existing.None? then 1 else 0)
    ensures ApplyPatch(existing, patches) == Success(Some(Labels(existing) + desired))
    ensures ApplyPatch(Some(Labels(existing) + desired), patches) == Success(Some(Labels(existing) + desired))
  {
    patches := if existing.None? then [CreateLabels] else [];
    visits := [];
    var remaining := desired.Keys;
    if remaining == {} {
      assert desired == map[];
    }
    while remaining != {}
      invariant VisitedSoFar(visits, desired, remaining)
      invariant remaining == {} ==> Enumerates(visits, desired)
      invariant patches == PatchFor(existing, visits)
      decreases remaining
    {
      var key :| key in remaining;
      var value := desired[key];
      LabelOpsSnoc(existing, visits, (key, value));
      VisitOne(visits, desired, remaining, key);
      assert PatchFor(existing, visits + [(key, value)]) == patches + [OpFor(existing, key, value)];
      patches := patches + [OpFor(existing, key, value)];
      visits := visits + [(key, value)];
      remaining := remaining - {key};
    }
    EnumeratesSize(visits, desired);
    PatchShape(existing, visits);
    PatchMerges(existing, desired, visits);
    PatchIdempotent(existing, desired, visits);
  }

  /** Part way through the range: `visits` lists each entry not in `remaining`, once. */
  ghost predicate VisitedSoFar(visits: seq<(string, string)>, desired: LabelMap, remaining: set<string>) {
    && remaining <= desired.Keys
    && (forall i :: 0 <= i < |visits| ==>
          visits[i].0 in desired && desired[visits[i].0] == visits[i].1 && visits[i].0 !in remaining)
    && (forall k :: k in desired && k !in remaining ==> exists i :: 0 <= i < |visits| && visits[i].0 == k)
    && (forall i, j :: 0 <= i < j < |visits| ==> visits[i].0 != visits[j].0)
  }

  /** Visiting one more remaining entry keeps the partial enumeration, and the full one ends it. */
  lemma VisitOne(visits: seq<(string, string)>, desired: LabelMap, remaining: set<string>, key: string)
    requires VisitedSoFar(visits, desired, remaining) && key in remaining
    ensures VisitedSoFar(visits + [(key, desired[key])], desired, remaining - {key})
    ensures remaining == {key} ==> Enumerates(visits + [(key, desired[key])], desired)
  {
    var next := visits + [(key, desired[key])];
    forall k | k in desired && k !in remaining - {key}
      ensures exists i :: 0 <= i < |next| && next[i].0 == k
    {
      if k == key {
        assert next[|visits|].0 == k;
      } else {
        var i :| 0 <= i < |visits| && visits[i].0 == k;
        assert next[i].0 == k;
      }
    }
  }

  /** Visiting one more entry appends its operation. */
  lemma {:induction false} LabelOpsSnoc(existing: Option<LabelMap>, visits: seq<(string, string)>, entry: (string, string))
    ensures LabelOps(existing, visits + [entry]) == LabelOps(existing, visits) + [OpFor(existing, entry.0, entry.1)]
    decreases |visits|
  {
    if visits != [] {
      assert (visits + [entry])[1..] == visits[1..] + [entry];
      LabelOpsSnoc(existing, visits[1..], entry);
    }
  }

  /** The operations line up with the visited entries. */
  lemma {:induction false} LabelOpsAt(existing: Option<LabelMap>, visits: seq<(string, string)>, i: nat)
    requires i < |visits|
    ensures LabelOps(existing, visits)[i] == OpFor(existing, visits[i].0, visits[i].1)
    decreases |visits|
  {
    if i > 0 {
      LabelOpsAt(existing, visits[1..], i - 1);
    } else if |visits| > 1 {
      LabelOpsAt(existing, visits[1..], 0);
    }
  }

  /** Dropping the first visited entry enumerates the rest of the map. */
  lemma EnumeratesTail(visits: seq<(string, string)>, desired: LabelMap)
    requires Enumerates(visits, desired) && visits != []
    ensures Enumerates(visits[1..], desired - {visits[0].0})
  {
  }

  /** A run of the range visits as many entries as the map holds. */
  lemma {:induction false} EnumeratesSize(visits: seq<(string, string)>, desired: LabelMap)
    requires Enumerates(visits, desired)
    ensures |visits| == |desired|
    decreases |visits|
  {
    if visits == [] {
      assert desired == map[];
    } else {
      EnumeratesTail(visits, desired);
      EnumeratesSize(visits[1..], desired - {visits[0].0});
    }
  }

  /**
   * Read back through its path, every operation sets one desired label to its desired value,
   * as a `replace` exactly when the Pod already carries that key; every desired label has an
   * operation, and no two operations share a path.
   */
  lemma PatchTargetsDesiredLabels(existing: Option<LabelMap>, desired: LabelMap, visits: seq<(string, string)>)
    requires Enumerates(visits, desired)
    ensures var ops := LabelOps(existing, visits);
      && |ops| == |desired|
      && (forall i :: 0 <= i < |ops| ==>
            && ParseTarget(ops[i].path).LabelMember?
            && ParseTarget(ops[i].path).key in desired
            && ops[i].value == Text(desired[ParseTarget(ops[i].path).key])
            && (ops[i].op == Replace <==> ParseTarget(ops[i].path).key in Labels(existing)))
      && (forall k :: k in desired ==> exists i :: 0 <= i < |ops| && ParseTarget(ops[i].path) == LabelMember(k))
      && (forall i, j :: 0 <= i < j < |ops| ==> ops[i].path != ops[j].path)
  {
    var ops := LabelOps(existing, visits);
    EnumeratesSize(visits, desired);
    forall i | 0 <= i < |visits|
      ensures ops[i] == OpFor(existing, visits[i].0, visits[i].1)
      ensures ParseTarget(ops[i].path) == LabelMember(visits[i].0)
    {
      LabelOpsAt(existing, visits, i);
      ParseLabelPath(visits[i].0);
    }
    forall k | k in desired
      ensures exists i :: 0 <= i < |ops| && ParseTarget(ops[i].path) == LabelMember(k)
    {
      var i :| 0 <= i < |visits| && visits[i].0 == k;
      assert ParseTarget(ops[i].path) == LabelMember(k);
    }
    forall i, j | 0 <= i < j < |ops|
      ensures ops[i].path != ops[j].path
    {
      EscapeInjective(visits[i].0, visits[j].0);
    }
  }

  /** The nil-labels operation stands first if the Pod has no labels map, and nowhere else. */
  lemma PatchShape(existing: Option<LabelMap>, visits: seq<(string, string)>)
    ensures var p := PatchFor(existing, visits);
      && |p| == |visits| + (if existing.None? then 1 else 0)
      && (existing.None? ==> p[0] == CreateLabels)
      && (forall i :: 0 <= i < |p| && p[i].path == LabelsPath ==> i == 0 && existing.None?)
  {
    var p := PatchFor(existing, visits);
    var ops := LabelOps(existing, visits);
    var offset := if existing.None? then 1 else 0;
    forall i | offset <= i < |p|
      ensures p[i].path != LabelsPath
    {
      LabelOpsAt(existing, visits, i - offset);
      assert p[i] == ops[i - offset];
      assert |LabelPath(visits[i - offset].0)| > |LabelsPath|;
    }
  }

  /**
   * Applying the label operations, in visiting order, to a map holding at least the Pod's
   * keys overrides it with the desired labels.
   */
  lemma {:induction false} ApplyLabelOps(labels: LabelMap, existing: Option<LabelMap>, desired: LabelMap, visits: seq<(string, string)>)
    requires Labels(existing).Keys <= labels.Keys
    requires Enumerates(visits, desired)
    ensures ApplyPatch(Some(labels), LabelOps(existing, visits)) == Success(Some(labels + desired))
    decreases |visits|
  {
    if visits == [] {
      assert desired == map[];
      assert labels + desired == labels;
    } else {
      var (key, value) := visits[0];
      var ops := LabelOps(existing, visits);
      assert ops[0] == OpFor(existing, key, value) && ops[1..] == LabelOps(existing, visits[1..]);
      ApplyOpFor(labels, existing, key, value);
      assert ApplyPatch(Some(labels), ops) == ApplyPatch(Some(labels[key := value]), ops[1..]);
      EnumeratesTail(visits, desired);
      ApplyLabelOps(labels[key := value], existing, desired - {key}, visits[1..]);
      OverrideStep(labels, desired, key);
    }
  }

  /** One label operation sets its label, on a map that holds at least the Pod's keys. */
  lemma ApplyOpFor(labels: LabelMap, existing: Option<LabelMap>, key: string, value: string)
    requires Labels(existing).Keys <= labels.Keys
    ensures ApplyOp(Some(labels), OpFor(existing, key, value)) == Success(Some(labels[key := value]))
  {
    ParseLabelPath(key);
  }

  /** Setting one desired label, then the others, is overriding with all of them. */
  lemma OverrideStep(labels: LabelMap, desired: LabelMap, key: string)
    requires key in desired
    ensures labels[key := desired[key]] + (desired - {key}) == labels + desired
  {
  }

  /** The patch turns the Pod's labels into its labels overridden by the desired ones. */
  lemma PatchMerges(existing: Option<LabelMap>, desired: LabelMap, visits: seq<(string, string)>)
    requires Enumerates(visits, desired)
    ensures ApplyPatch(existing, PatchFor(existing, visits)) == Success(Some(Labels(existing) + desired))
  {
    var p := PatchFor(existing, visits);
    if existing.None? {
      assert p[0] == CreateLabels && p[1..] == LabelOps(existing, visits);
      assert ApplyOp(existing, CreateLabels) == Success(Some(map[]));
      ApplyLabelOps(map[], existing, desired, visits);
    } else {
      assert p == LabelOps(existing, visits);
      ApplyLabelOps(existing.value, existing, desired, visits);
    }
  }

  /** Applying the patch a second time leaves the merged labels as they are. */
  lemma PatchIdempotent(existing: Option<LabelMap>, desired: LabelMap, visits: seq<(string, string)>)
    requires Enumerates(visits, desired)
    ensures ApplyPatch(Some(Labels(existing) + desired), PatchFor(existing, visits)) == Success(Some(Labels(existing) + desired))
  {
    var merged := Labels(existing) + desired;
    var p := PatchFor(existing, visits);
    if existing.None? {
      assert p[0] == CreateLabels && p[1..] == LabelOps(existing, visits);
      assert ApplyOp(Some(merged), CreateLabels) == Success(Some(map[]));
      ApplyLabelOps(map[], existing, desired, visits);
      assert map[] + desired == merged;
    } else {
      assert p == LabelOps(existing, visits);
      ApplyLabelOps(merged, existing, desired, visits);
      assert merged + desired == merged;
    }
  }
}

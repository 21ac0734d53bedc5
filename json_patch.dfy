/**
 * The part of JSON Patch (RFC 6902) the webhook emits: `add` (section 4.1) and `replace`
 * (section 4.3) at `/metadata/labels` or at one label below it, applied to the one member
 * of a Pod document a label patch can touch, its labels map (None: the member is absent).
 */
module JsonPatch {
  import opened Wrappers
  import opened Strings
  import opened JsonPointer

  type LabelMap = map<string, string>

  datatype Op = Add | Replace

  /** A patch value: a label's string, or the empty object `{}` that creates the labels map. */
  datatype PatchValue = Text(text: string) | EmptyObject

  datatype PatchOperation = PatchOperation(op: Op, path: string, value: PatchValue)

  const LabelsPath: string := "/metadata/labels"

  /** The path of label `key`: the labels path, `/`, and the key escaped as a reference token. */
  function LabelPath(key: string): string {
    LabelsPath + "/" + Escape(key)
  }

  /** A Go map read as a value: a nil map has no entries. */
  function Labels(labels: Option<LabelMap>): LabelMap {
    labels.GetOr(map[])
  }

  /** Where a path points in the modelled part of the document. */
  datatype Target = LabelsObject | LabelMember(key: string) | Unmodelled

  /** Evaluates a JSON Pointer (section 4 of RFC 6901) against the labels member. */
  function ParseTarget(path: string): Target {
    if path == LabelsPath then LabelsObject
    else if HasPrefix(path, LabelsPath + "/") && WellEscaped(path[|LabelsPath| + 1..]) then
      LabelMember(Unescape(path[|LabelsPath| + 1..]))
    else Unmodelled
  }

  /** The path of a label points at that label and at nothing else. */
  lemma ParseLabelPath(key: string)
    ensures ParseTarget(LabelPath(key)) == LabelMember(key)
  {
    var path := LabelPath(key);
    assert path[..|LabelsPath| + 1] == LabelsPath + "/";
    assert path[|LabelsPath| + 1..] == Escape(key);
    EscapeWellEscaped(key);
    EscapeRoundTrip(key);
  }

  datatype PatchError =
    | MissingParent   // `add` below a labels map that does not exist (RFC 6902 section 4.1)
    | MissingTarget   // `replace` of a label that does not exist (RFC 6902 section 4.3)
    | Unsupported     // a path or value outside the modelled labels member

  /** One operation, as sections 4.1 and 4.3 of RFC 6902 define it. */
  function ApplyOp(labels: Option<LabelMap>, op: PatchOperation): Result<Option<LabelMap>, PatchError> {
    match (ParseTarget(op.path), op.value)
    case (LabelsObject, EmptyObject) =>
      if op.op == Replace && labels.None? then Failure(MissingTarget) else Success(Some(map[]))
    case (LabelMember(key), Text(v)) =>
      if labels.None? then Failure(MissingParent)
      else if op.op == Replace && key !in labels.value then Failure(MissingTarget)
      else Success(Some(labels.value[key := v]))
    case _ => Failure(Unsupported)
  }

  /** A whole patch: operations in order, stopping at the first that fails (RFC 6902 section 3). */
  function ApplyPatch(labels: Option<LabelMap>, ops: seq<PatchOperation>): Result<Option<LabelMap>, PatchError>
    decreases |ops|
  {
    if ops == [] then Success(labels)
    else match ApplyOp(labels, ops[0])
      case Failure(e) => Failure(e)
      case Success(next) => ApplyPatch(next, ops[1..])
  }
}

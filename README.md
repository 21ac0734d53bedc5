# Label-injecting admission webhook, modelled in Dafny

This project models the decision core of a Kubernetes mutating admission webhook
(`webhook.go`). The webhook receives an `AdmissionReview` for an object under admission.
Objects other than Pods pass through unchanged. A Pod passes through unchanged unless one of
its label keys starts with `rollouts-pod-template-hash`. For such a marked Pod the webhook
asks a label service for a set of labels. In this version the service is a stub that always
returns `{"team": "microservices"}`. The webhook then answers with a JSON Patch (RFC 6902)
holding one `add` or `replace` per label. The label key is escaped into the path as a JSON
Pointer reference token (section 3 of RFC 6901). Failures on the way become refusals
(`Allowed=false`) with a message. There are two exceptions. A review without a request
gets no reply at all (see "## Findings"). When the refusal itself cannot be encoded, its
encoding error is ignored (see "## Left out"). The handler this model proves, `ServeMutate`,
replies to every body.

Modules, leaf first:

- `Wrappers` (wrappers.dfy): `Option` and `Result`.
- `Strings` (strings.dfy): the `HasPrefix` and one-character `ReplaceAll` the webhook uses, and the two-character rewrite used only by the decoder `Unescape`.
- `JsonPointer` (json_pointer.dfy): `escapeJSONPointer` (`Escape`), the decoding of section 4 of RFC 6901 (`Unescape`), and the escaping lemmas.
- `JsonPatch` (json_patch.dfy): patch operations, plus a small interpreter of sections 4.1 and 4.3 of RFC 6902. The interpreter applies operations to the only part of a Pod a label patch can touch: its labels map. `None` stands for a Pod with no labels map, Go's nil map.
- `PatchBuilder` (patch_builder.dfy): the patch-building loop of `mutate` as the method `BuildPatch`, proved against the function `PatchFor`, with the lemmas about that patch.
- `Admission` (admission.dfy): the marker search loop (`FindMarker`) and `mutate` (`Mutate`), proved against the decision function `Decision`.
- `Server` (server.dfy): `serveMutate` once the body is read (`ServeMutate`), proved against `Serve`.

Go ranges over maps in an unspecified order. The two loops model this by picking any key
still to visit (`var key :| key in remaining`). The patch builder returns the order it took
as a ghost sequence `visits` of `(key, value)` pairs. `Enumerates(visits, desired)` says
that this sequence lists every entry of the desired map exactly once. Every property of the
patch holds for every such order.

The collaborators are inputs, gathered in `Collaborators`:
- the label service's answer: labels or an error text; the stub's answer is the constant `MockLabelSource`;
- whether `json.Marshal` encodes the patch or fails with an error text;
- whether `json.Marshal` encodes the response envelope.

Decoding the Pod's raw bytes gives `Decoded(labels)` or `Undecodable(error)`. Decoding the
HTTP body gives `EmptyBody`, `NotAReview` or `Review(review)`.

## Model

| member | source | states |
|---|---|---|
| `Strings.ReplaceChar` | webhook.go:187-188 | every character of the result is an unreplaced character of the input or part of the replacement, so the replaced character survives only if the replacement contains it |
| `JsonPointer.Escape` | webhook.go:186-190 | an escaped key contains no `/` |
| `JsonPointer.TildesEscaped` | webhook.go:187 | after the first rewrite, every `~` is immediately followed by `0` |
| `JsonPointer.SlashesEscaped` | webhook.go:188 | the second rewrite of a string whose every `~` heads a `~0` yields a well-formed token |
| `JsonPointer.EscapeWellEscaped` | webhook.go:186-190 | the escaped key is a valid reference token (section 3 of RFC 6901): it has no `/`, and every `~` is followed by `0` or `1` |
| `JsonPointer.UnescapeSlashes` | webhook.go:188 | decoding `~1` to `/` undoes the second rewrite when no `~1` existed before it |
| `JsonPointer.UnescapeTildes` | webhook.go:187 | decoding `~0` to `~` undoes the first rewrite for every key |
| `JsonPointer.EscapeRoundTrip` | webhook.go:186-190 | decoding per section 4 of RFC 6901 (`~1` then `~0`) recovers the original key |
| `JsonPointer.EscapeInjective` | webhook.go:186-190 | two keys with the same escaped form are equal |
| `JsonPointer.EscapeExample` | webhook.go:186-190 | `a/b~c` escapes to `a~1b~0c`, and that decodes back to `a/b~c` |
| `JsonPatch.ParseLabelPath` | webhook.go:140 | the path `/metadata/labels/` + escaped key points at that very label key in the labels map |
| `PatchBuilder.LabelOps` | webhook.go:131-143 | the label part of the patch has exactly one operation per visited entry |
| `PatchBuilder.BuildPatch` | webhook.go:122-143 | the loop visits every desired entry exactly once, in some order. Its patch is the optional leading `add /metadata/labels {}` (only for a nil labels map), then one operation per visited entry, in visiting order. So it has one operation per desired label, plus the leading one. Applied to the Pod's labels it yields them overridden by the desired labels, and applying it again changes nothing |
| `PatchBuilder.VisitOne` | webhook.go:131 | one more step of the range over the desired labels keeps the invariant "each visited entry once, and only visited entries"; the last step completes the enumeration |
| `PatchBuilder.LabelOpsSnoc` | webhook.go:138-142 | visiting one more entry appends exactly its operation |
| `PatchBuilder.LabelOpsAt` | webhook.go:131-142 | the i-th label operation belongs to the i-th visited entry |
| `PatchBuilder.EnumeratesTail` | webhook.go:131 | after its first entry, a run of the range enumerates the rest of the map |
| `PatchBuilder.EnumeratesSize` | webhook.go:131 | a run of the range visits exactly as many entries as the map holds |
| `PatchBuilder.PatchTargetsDesiredLabels` | webhook.go:131-143 | read back through its path, each operation sets a desired label to its desired value; it is `replace` iff the key is among the Pod's original labels and `add` otherwise; every desired label has an operation; no two operations share a path; there are as many operations as desired labels |
| `PatchBuilder.PatchShape` | webhook.go:122-143 | the patch has one operation per visited entry, plus one exactly when the labels map is nil; that extra one is `add /metadata/labels {}`, comes first, and is the only operation whose path is `/metadata/labels` |
| `PatchBuilder.ApplyOpFor` | webhook.go:132-142 | one label operation succeeds on any map holding the Pod's original keys, and sets that label |
| `PatchBuilder.OverrideStep` | webhook.go:131-143 | setting one desired label and then the others is the same as overriding with all of them |
| `PatchBuilder.ApplyLabelOps` | webhook.go:131-143 | the label operations, applied in order to a map holding at least the Pod's keys, succeed and override that map with the desired labels |
| `PatchBuilder.PatchMerges` | webhook.go:122-143 | the whole patch, applied to the Pod's labels (present or absent), succeeds and yields those labels overridden by the desired ones |
| `PatchBuilder.PatchIdempotent` | webhook.go:122-143 | applying the patch again to the merged labels succeeds and changes nothing |
| `Admission.FindMarker` | webhook.go:99-106 | the search loop finds a marker iff some label key starts with `rollouts-pod-template-hash`; a nil labels map has none |
| `Admission.Mutate` | webhook.go:83-159 | mutate's response is the decision `Decision` for the order its patch loop took. Whenever the request reaches the patch loop, that order is a full run over the service's labels, including when encoding the patch fails. The response is well formed. An object of another kind, and a Pod without a marker key, are admitted unchanged. A patch comes only for a Pod with a labels map and a successful label service; applied to the Pod's labels, it yields them overridden by the service's labels |
| `Admission.DecisionWellFormed` | webhook.go:87-158 | every decision is well formed: a refusal carries a non-empty message and no patch; a response with a patch is an admission with patch type JSONPatch |
| `Admission.NonPodAdmitted` | webhook.go:87-89 | an object of another kind is admitted with no patch and no message |
| `Admission.UnmarkedPodAdmitted` | webhook.go:99-110 | a Pod without a marker key is admitted unchanged, whatever the label service or the encoder would do |
| `Admission.NilLabelsUnmarked` | webhook.go:100-110 | a Pod without a labels map never satisfies the admission predicate |
| `Admission.PatchNeverCreatesLabels` | webhook.go:123-129 | a patch is only ever produced for a Pod that has a labels map, so the nil-map `add /metadata/labels {}` branch is unreachable: no operation has the path `/metadata/labels`. For a full run over the service's labels, every operation's path points at one of those labels |
| `Admission.AdmittedPatchMerges` | webhook.go:131-158 | the admitted patch, applied to the Pod's labels, yields those labels overridden by the service's labels, and applying it again changes nothing |
| `Admission.TeamLabelAdded` | webhook.go:112-158 | a Pod labelled `rollouts-pod-template-hash-foo`, with the stub service, is admitted with the single patch operation `add /metadata/labels/team "microservices"` |
| `Server.ServeMutate` | webhook.go:45-80 | serveMutate replies as `Serve` does: always with a well-formed response. Whenever the request reaches the patch loop, including when a patch comes back, the loop made a full run over the service's labels |
| `Server.EveryBodyAnswered` | webhook.go:45-80 | every request body gets a reply, in an `admission.k8s.io/v1` `AdmissionReview` envelope, holding a well-formed response |
| `Server.UidEchoed` | webhook.go:60-76 | a decoded request is answered either with status 200 and its own UID, or with the refusal for an envelope that cannot be encoded |
| `Server.MalformedBodyRefused` | webhook.go:53-56 | a body that is not an AdmissionReview is refused with status 400, the message "Could not unmarshal AdmissionReview" and no patch |
| `Server.ReviewWithoutRequestDropped` | webhook.go:84-87 | as written, where mutate reads the kind through the request pointer, a review without a request gets no reply at all. The source's handler and the corrected one differ exactly on that body |

## Left out

- `main` is not modelled: cluster configuration, the client set, the `PORT` variable and the TLS listener are process bootstrap.
- The HTTP side of `serveMutate` and `writeAdmissionError` is left out: reading the body, headers and writing bytes. A read error and an empty body both become `EmptyBody`; only the status code and the envelope of each reply are kept.
- `writeAdmissionError` ignores its own encoding error (`respBytes, _`). The model does not represent that case.
- JSON decoding and encoding are not modelled, nor the Kubernetes API types. Decoding is a decoded-or-failed input. Encoding the patch and the envelope are collaborator outcomes. A response's `patch` holds the operations, not their bytes.
- The label service is an input rather than a call. Go calls `getLabelsFromAPI` only after the marker is found. The service has no side effects, so passing its answer in changes nothing observable. The stub's answer is `MockLabelSource`.
- The `clientset` parameter of `mutate` is unused in the source and does not appear.
- The order of the patch operations is whatever order Go's map range gives. No order is fixed; every property is proved for every order. A sorted order is a possible design, but the code does not sort, so the model does not either.
- The UID of the 500 reply (envelope cannot be encoded) is empty, as in the code. A UID is echoed only in replies that carry mutate's response.
- `JsonPatch.ApplyPatch` interprets only the paths a label patch can use: `/metadata/labels` and one label below it. Any other path or value is `Unsupported`. It does not model `remove`, `move`, `copy` or `test`.

## Findings

| source | as written | input that shows it | evidently intended | confidence | as-written member | corrected member |
|---|---|---|---|---|---|---|
| webhook.go:84-87 | a review that decodes but has no `request` member leaves `Request` nil, and `mutate` dereferences it at `req.Kind.Kind`; the handler panics and the connection closes with no reply | the request body `{}` | every failure degrades to a refusal in a valid AdmissionReview; here status 400 with the message "AdmissionReview has no request" | not executed; high (a nil pointer dereference in Go always panics) | `Server.ServeAsWritten` through `Server.MutateAsWritten`, shown by `Server.ReviewWithoutRequestDropped` | `Server.ServeMutate` (specified by `Server.Serve`), proved by `Server.EveryBodyAnswered` |

/**
 * The webhook's serveMutate once the HTTP body is in hand: decode the review, run mutate,
 * echo the request's UID and wrap the response in an AdmissionReview envelope; every
 * failure on the way becomes a refusal with a fixed message and an HTTP status.
 */
module Server {
  import opened Wrappers
  import opened Admission

  const ApiVersion: string := "admission.k8s.io/v1"
  const ReviewKind: string := "AdmissionReview"

  const StatusOK: int := 200
  const StatusBadRequest: int := 400
  const StatusInternalServerError: int := 500

  /** A decoded AdmissionReview; `request` is absent when the document has no `request` member. */
  datatype AdmissionReview = AdmissionReview(request: Option<AdmissionRequest>)

  /** The request body: empty or unreadable, not an AdmissionReview, or a decoded review. */
  datatype RequestBody = EmptyBody | NotAReview | Review(review: AdmissionReview)

  /** What goes back on the connection: a status and an envelope, or nothing at all. */
  datatype Reply = Reply(status: int, envelope: ReviewEnvelope) | Dropped

  /** writeAdmissionError: a refusal in an envelope, with no UID. */
  function ErrorReply(status: int, message: string): Reply {
    Reply(status, ReviewEnvelope(ApiVersion, ReviewKind, Deny(message)))
  }

  /** The response in its envelope, written if json.Marshal encodes it and refused with status 500 if not. */
  function Wrap(response: AdmissionResponse, env: Collaborators): Reply {
    var envelope := ReviewEnvelope(ApiVersion, ReviewKind, response);
    if env.marshalReview(envelope) then Reply(StatusOK, envelope)
    else ErrorReply(StatusInternalServerError, "Could not marshal AdmissionReview response")
  }

  /** The reply for a decoded request, given the order the patch loop visits the labels in. */
  ghost function Respond(request: AdmissionRequest, env: Collaborators, visits: seq<(string, string)>): Reply {
    Wrap(Decision(request, env, visits).(uid := request.uid), env)
  }

  /**
   * mutate as written, on the review it is handed: it reads the request's kind through the
   * request pointer, so a review without a request panics (None) before any decision.
   */
  ghost function MutateAsWritten(review: AdmissionReview, env: Collaborators, visits: seq<(string, string)>): Option<AdmissionResponse> {
    match review.request
    case None => None
    case Some(request) => Some(Decision(request, env, visits))
  }

  /** serveMutate, with a review that has no request refused instead of dereferenced. */
  ghost function Serve(body: RequestBody, env: Collaborators, visits: seq<(string, string)>): Reply {
    match body
    case EmptyBody => ErrorReply(StatusBadRequest, "Empty request body")
    case NotAReview => ErrorReply(StatusBadRequest, "Could not unmarshal AdmissionReview")
    case Review(AdmissionReview(None)) => ErrorReply(StatusBadRequest, "AdmissionReview has no request")
    case Review(AdmissionReview(Some(request))) => Respond(request, env, visits)
  }

  /**
   * serveMutate as written: every decoded review goes to mutate; when mutate panics the
   * handler is abandoned and the connection closes without a reply. Otherwise the request's
   * UID is copied into the response and the envelope is written.
   */
  ghost function ServeAsWritten(body: RequestBody, env: Collaborators, visits: seq<(string, string)>): Reply {
    match body
    case Review(review) =>
      (match MutateAsWritten(review, env, visits)
       case None => Dropped
       case Some(response) => Wrap(response.(uid := review.request.value.uid), env))
    case _ => Serve(body, env, visits)
  }

  /** serveMutate: one request body in, one reply out. */
  method ServeMutate(body: RequestBody, env: Collaborators)
    returns (reply: Reply, ghost visits: seq<(string, string)>)
    ensures reply == Serve(body, env, visits)
    ensures reply.Reply? && WellFormed(reply.envelope.response)
    ensures reply.Reply? && reply.envelope.response.patch.Some? ==> VisitsLabelSource(env, visits)
    ensures body.Review? && body.review.request.Some? && BuildsPatch(body.review.request.value, env) ==> VisitsLabelSource(env, visits)
  {
    visits := [];
    match body
    case EmptyBody =>
      reply := ErrorReply(StatusBadRequest, "Empty request body");
    case NotAReview =>
      reply := ErrorReply(StatusBadRequest, "Could not unmarshal AdmissionReview");
    case Review(AdmissionReview(None)) =>
      reply := ErrorReply(StatusBadRequest, "AdmissionReview has no request");
    case Review(AdmissionReview(Some(request))) =>
      var response;
      response, visits := Mutate(request, env);
      response := response.(uid := request.uid);
      var envelope := ReviewEnvelope(ApiVersion, ReviewKind, response);
      if env.marshalReview(envelope) {
        reply := Reply(StatusOK, envelope);
      } else {
        reply := ErrorReply(StatusInternalServerError, "Could not marshal AdmissionReview response");
      }
    EveryBodyAnswered(body, env, visits);
  }

  /** Every body gets a reply: a well-formed response in an admission.k8s.io/v1 AdmissionReview. */
  lemma EveryBodyAnswered(body: RequestBody, env: Collaborators, visits: seq<(string, string)>)
    ensures var reply := Serve(body, env, visits);
      && reply.Reply?
      && reply.envelope.apiVersion == ApiVersion && reply.envelope.kind == ReviewKind
      && WellFormed(reply.envelope.response)
  {
  }

  /**
   * A decoded request is answered with status 200 and its own UID; the only other outcome
   * is the refusal written when the envelope cannot be encoded, which carries no UID.
   */
  lemma UidEchoed(request: AdmissionRequest, env: Collaborators, visits: seq<(string, string)>)
    ensures var reply := Serve(Review(AdmissionReview(Some(request))), env, visits);
      || (reply.status == StatusOK && reply.envelope.response.uid == request.uid)
      || reply == ErrorReply(StatusInternalServerError, "Could not marshal AdmissionReview response")
  {
  }

  /** A body that is not an AdmissionReview is refused with status 400, a fixed message and no patch. */
  lemma MalformedBodyRefused(env: Collaborators, visits: seq<(string, string)>)
    ensures var reply := Serve(NotAReview, env, visits);
      && reply.status == StatusBadRequest
      && !reply.envelope.response.allowed
      && reply.envelope.response.result == Some(Status("Could not unmarshal AdmissionReview"))
      && reply.envelope.response.patch.None?
  {
  }

  /**
   * As written, the body `{}` decodes as a review without a request and gets no reply at
   * all; on every other body the source and the corrected handler reply alike.
   */
  lemma ReviewWithoutRequestDropped(body: RequestBody, env: Collaborators, visits: seq<(string, string)>)
    ensures ServeAsWritten(Review(AdmissionReview(None)), env, visits) == Dropped
    ensures ServeAsWritten(body, env, visits) != Serve(body, env, visits) <==> body == Review(AdmissionReview(None))
  {
    EveryBodyAnswered(body, env, visits);
  }
}

/** The HTTP handlers (internal/handlers/http.go): which status and which
    error label each request gets. A handler's reply depends on the method,
    on whether the body decoded, and on what the service returned; writing
    the response is not modelled. The service results are parameters, and a
    result a handler never asks for cannot change its reply. */
module Handlers {
  import opened Common
  import opened Models
  import Validator
  import Repository
  import Claims

  const StatusOK: int := 200
  const StatusCreated: int := 201
  const StatusBadRequest: int := 400
  const StatusNotFound: int := 404
  const StatusMethodNotAllowed: int := 405
  const StatusConflict: int := 409
  const StatusInternalServerError: int := 500

  /** The text the reversal handler maps to 409. */
  const AlreadyReversedText: string := "claim is already reversed"

  /** The JSON body of a reply. */
  datatype Body =
    | ErrorBody(error: string, message: string)
    | ClaimBody(claim: ClaimResponse)
    | ReversalBody(reversal: ReversalResponse)
    | HealthBody(status: string)

  datatype Reply = Reply(status: int, body: Body)

  /** What json.Decoder.Decode made of the request body. */
  datatype Parsed<T> = Parsed(value: T) | ParseError(message: string)

  /** What a service call returned: a response, or an error with its text. */
  datatype Outcome<T> = Done(value: T) | Failed(error: string)

  /** sendErrorResponse. */
  function ErrorReply(status: int, error: string, message: string): Reply {
    Reply(status, ErrorBody(error, message))
  }

  function PostOnly(): Reply {
    ErrorReply(StatusMethodNotAllowed, "Method not allowed", "Only POST method is allowed")
  }

  /** SubmitClaim: POST only; the body must decode; the request must pass
      validation; a submit error is 404 when its text is exactly the
      pharmacy-not-found text for the request's NPI, 500 otherwise. */
  function SubmitClaimReply(verb: string, request: Parsed<ClaimRequest>, validation: Option<string>,
                            submitted: Outcome<ClaimResponse>): (r: Reply)
    ensures r.status == StatusMethodNotAllowed <==> verb != "POST"
    ensures r.status == StatusCreated <==>
      verb == "POST" && request.Parsed? && validation.None? && submitted.Done?
    ensures r.status == StatusCreated ==> r.body == ClaimBody(submitted.value)
    ensures r.status == StatusNotFound <==>
      && verb == "POST" && request.Parsed? && validation.None? && submitted.Failed?
      && submitted.error == Claims.PharmacyNotFoundText(request.value.npi)
    ensures r.status in {StatusCreated, StatusBadRequest, StatusNotFound, StatusMethodNotAllowed, StatusInternalServerError}
    ensures r.status != StatusCreated ==> r.body.ErrorBody?
    ensures verb != "POST" ==> r == PostOnly()
    ensures verb == "POST" && request.ParseError? ==> r == ErrorReply(StatusBadRequest, "Invalid JSON format", request.message)
    ensures verb == "POST" && request.Parsed? && validation.Some? ==>
      r == ErrorReply(StatusBadRequest, "Validation failed", validation.value)
    ensures r.status == StatusNotFound ==> r == ErrorReply(StatusNotFound, "Pharmacy not found", submitted.error)
    ensures && verb == "POST" && request.Parsed? && validation.None? && submitted.Failed?
            && submitted.error != Claims.PharmacyNotFoundText(request.value.npi) ==>
      r == ErrorReply(StatusInternalServerError, "Failed to submit claim", submitted.error)
  {
    if verb != "POST" then PostOnly()
    else if request.ParseError? then ErrorReply(StatusBadRequest, "Invalid JSON format", request.message)
    else if validation.Some? then ErrorReply(StatusBadRequest, "Validation failed", validation.value)
    else match submitted
      case Done(response) => Reply(StatusCreated, ClaimBody(response))
      case Failed(e) =>
        if e == Claims.PharmacyNotFoundText(request.value.npi) then ErrorReply(StatusNotFound, "Pharmacy not found", e)
        else ErrorReply(StatusInternalServerError, "Failed to submit claim", e)
  }

  /** The service is consulted only as far as the request gets: a wrong
      method, a bad body or a failed validation decides the reply whatever
      the later calls would return. */
  lemma SubmitStopsEarly(verb: string, request: Parsed<ClaimRequest>, validation: Option<string>,
                         v2: Option<string>, s1: Outcome<ClaimResponse>, s2: Outcome<ClaimResponse>)
    ensures verb != "POST" || request.ParseError? ==>
      SubmitClaimReply(verb, request, validation, s1) == SubmitClaimReply(verb, request, v2, s2)
    ensures validation.Some? ==> SubmitClaimReply(verb, request, validation, s1) == SubmitClaimReply(verb, request, validation, s2)
    ensures verb == "POST" && request.ParseError? ==>
      SubmitClaimReply(verb, request, validation, s1) == ErrorReply(StatusBadRequest, "Invalid JSON format", request.message)
    ensures verb == "POST" && request.Parsed? && validation.Some? ==>
      SubmitClaimReply(verb, request, validation, s1) == ErrorReply(StatusBadRequest, "Validation failed", validation.value)
  {
  }

  /** A `null` body decodes to the zero request, which validation refuses. */
  lemma NullClaimBodyRejected(submitted: Outcome<ClaimResponse>)
    ensures SubmitClaimReply("POST", Parsed(ZeroClaimRequest), Validator.ValidateClaimRequest(ZeroClaimRequest), submitted)
      == ErrorReply(StatusBadRequest, "Validation failed", Validator.NdcLengthError)
  {
    Validator.ZeroRequestRejected();
  }

  /** Of the errors the claims service returns from a submission, only the
      unknown-pharmacy text is a 404: every wrapped error starts with
      "failed to" and is a 500. */
  lemma WrappedSubmitErrorsAre500(request: ClaimRequest, context: string, inner: string)
    requires Validator.WellFormed(request)
    requires context in {"failed to validate pharmacy", "failed to create claim"}
    ensures SubmitClaimReply("POST", Parsed(request), None, Failed(Wrap(context, inner))).status == StatusInternalServerError
  {
    assert Wrap(context, inner)[0] == 'f';
    assert Claims.PharmacyNotFoundText(request.npi)[0] == 'p';
  }

  /** ReverseClaim as written: POST only; the body must decode; the nil
      claim id is refused before the service is called; a service error is
      404 when it is exactly the claim-not-found text for the id, 409 when it
      is exactly "claim is already reversed", and 500 otherwise. */
  function ReverseClaimReply(verb: string, request: Parsed<ReversalRequest>, reversed: Outcome<ReversalResponse>): (r: Reply)
    ensures r.status == StatusMethodNotAllowed <==> verb != "POST"
    ensures verb == "POST" && request.Parsed? && request.value.claimId == NilUuid ==>
      r == ErrorReply(StatusBadRequest, "Invalid claim_id", "claim_id must be a valid UUID")
    ensures r.status == StatusOK <==>
      verb == "POST" && request.Parsed? && request.value.claimId != NilUuid && reversed.Done?
    ensures r.status == StatusOK ==> r.body == ReversalBody(reversed.value)
    ensures r.status == StatusNotFound <==>
      && verb == "POST" && request.Parsed? && request.value.claimId != NilUuid && reversed.Failed?
      && reversed.error == Claims.ClaimNotFoundText(request.value.claimId)
    ensures r.status == StatusConflict <==>
      && verb == "POST" && request.Parsed? && request.value.claimId != NilUuid
      && reversed == Failed(AlreadyReversedText)
    ensures r.status != StatusOK ==> r.body.ErrorBody?
    ensures r.status in {StatusOK, StatusBadRequest, StatusNotFound, StatusMethodNotAllowed, StatusConflict, StatusInternalServerError}
    ensures verb != "POST" ==> r == PostOnly()
    ensures verb == "POST" && request.ParseError? ==> r == ErrorReply(StatusBadRequest, "Invalid JSON format", request.message)
    ensures r.status == StatusNotFound ==> r == ErrorReply(StatusNotFound, "Claim not found", reversed.error)
    ensures r.status == StatusConflict ==> r == ErrorReply(StatusConflict, "Claim already reversed", reversed.error)
    ensures && verb == "POST" && request.Parsed? && request.value.claimId != NilUuid && reversed.Failed?
            && reversed.error != Claims.ClaimNotFoundText(request.value.claimId) && reversed.error != AlreadyReversedText ==>
      r == ErrorReply(StatusInternalServerError, "Failed to reverse claim", reversed.error)
  {
    if verb != "POST" then PostOnly()
    else if request.ParseError? then ErrorReply(StatusBadRequest, "Invalid JSON format", request.message)
    else if request.value.claimId == NilUuid then
      ErrorReply(StatusBadRequest, "Invalid claim_id", "claim_id must be a valid UUID")
    else match reversed
      case Done(response) => Reply(StatusOK, ReversalBody(response))
      case Failed(e) =>
        if e == Claims.ClaimNotFoundText(request.value.claimId) then ErrorReply(StatusNotFound, "Claim not found", e)
        else if e == AlreadyReversedText then ErrorReply(StatusConflict, "Claim already reversed", e)
        else ErrorReply(StatusInternalServerError, "Failed to reverse claim", e)
  }

  /** A wrong method, a bad body or the nil id decides the reply whatever the
      service would return; a `null` body (the nil id) is a 400. */
  lemma ReverseStopsEarly(verb: string, request: Parsed<ReversalRequest>, r1: Outcome<ReversalResponse>,
                          r2: Outcome<ReversalResponse>)
    ensures verb != "POST" || request.ParseError? || request.value.claimId == NilUuid ==>
      ReverseClaimReply(verb, request, r1) == ReverseClaimReply(verb, request, r2)
    ensures ReverseClaimReply("POST", Parsed(ReversalRequest(NilUuid, "")), r1).status == StatusBadRequest
  {
  }

  /** The errors the claims service's ReverseClaim can return: a failed
      fetch, an unknown claim, or a refused or failed reversal. */
  ghost predicate ReverseServiceError(e: string, claimId: Uuid) {
    (exists inner :: e == Wrap("failed to get claim", inner))
    || e == Claims.ClaimNotFoundText(claimId)
    || (exists inner :: e == Wrap("failed to reverse claim", inner))
  }

  /** No error of the real service is the 409 text: "claim with ID ..."
      and the wrapped errors all differ from it within the first ten
      characters. So the 409 branch is never taken. */
  lemma ServiceNeverConflicts(request: ReversalRequest, e: string)
    requires ReverseServiceError(e, request.claimId)
    ensures ReverseClaimReply("POST", Parsed(request), Failed(e)).status != StatusConflict
  {
    if e == Claims.ClaimNotFoundText(request.claimId) {
      assert e[6] == 'w' && AlreadyReversedText[6] == 'i';
    } else {
      var inner :| e == Wrap("failed to get claim", inner) || e == Wrap("failed to reverse claim", inner);
      assert e[0] == 'f' && AlreadyReversedText[0] == 'c';
    }
  }

  /** A second reversal of the same claim: the repository refuses it with
      "claim already reversed", the service wraps it, and the handler
      answers 500 rather than 409. */
  lemma DuplicateReversalGets500(request: ReversalRequest)
    requires request.claimId != NilUuid
    ensures ReverseClaimReply("POST", Parsed(request),
      Failed(Wrap("failed to reverse claim", Repository.ClaimAlreadyReversed))).status == StatusInternalServerError
  {
    var e := Wrap("failed to reverse claim", Repository.ClaimAlreadyReversed);
    assert e[0] == 'f';
    assert Claims.ClaimNotFoundText(request.claimId)[0] == 'c';
    assert AlreadyReversedText[0] == 'c';
  }

  /** The reversal handler as evidently intended: the conflict is the text
      the service actually returns for a claim that is already reversed. */
  function ReverseClaimReplyChecked(verb: string, request: Parsed<ReversalRequest>,
                                    reversed: Outcome<ReversalResponse>): (r: Reply)
    ensures r.status == StatusConflict <==>
      && verb == "POST" && request.Parsed? && request.value.claimId != NilUuid
      && reversed == Failed(Wrap("failed to reverse claim", Repository.ClaimAlreadyReversed))
    ensures r.status == StatusConflict ==> r == ErrorReply(StatusConflict, "Claim already reversed", reversed.error)
    ensures reversed != Failed(AlreadyReversedText) && r.status != StatusConflict ==>
      r == ReverseClaimReply(verb, request, reversed)
    ensures verb == "POST" && request.Parsed? && request.value.claimId != NilUuid && reversed == Failed(AlreadyReversedText) ==>
      r == ErrorReply(StatusInternalServerError, "Failed to reverse claim", AlreadyReversedText)
  {
    if verb != "POST" then PostOnly()
    else if request.ParseError? then ErrorReply(StatusBadRequest, "Invalid JSON format", request.message)
    else if request.value.claimId == NilUuid then
      ErrorReply(StatusBadRequest, "Invalid claim_id", "claim_id must be a valid UUID")
    else match reversed
      case Done(response) => Reply(StatusOK, ReversalBody(response))
      case Failed(e) =>
        if e == Claims.ClaimNotFoundText(request.value.claimId) then ErrorReply(StatusNotFound, "Claim not found", e)
        else if e == Wrap("failed to reverse claim", Repository.ClaimAlreadyReversed) then
          ErrorReply(StatusConflict, "Claim already reversed", e)
        else ErrorReply(StatusInternalServerError, "Failed to reverse claim", e)
  }

  /** With the corrected handler a duplicate reversal is a 409, and the
      reply to every other request is unchanged. */
  lemma DuplicateReversalGets409(request: ReversalRequest)
    requires request.claimId != NilUuid
    ensures ReverseClaimReplyChecked("POST", Parsed(request),
      Failed(Wrap("failed to reverse claim", Repository.ClaimAlreadyReversed))).status == StatusConflict
  {
  }

  /** HealthCheck: GET only; the reply is {"status": "healthy"}. */
  function HealthReply(verb: string): (r: Reply)
    ensures verb == "GET" <==> r == Reply(StatusOK, HealthBody("healthy"))
    ensures verb != "GET" ==> r == ErrorReply(StatusMethodNotAllowed, "Method not allowed", "Only GET method is allowed")
  {
    if verb != "GET" then ErrorReply(StatusMethodNotAllowed, "Method not allowed", "Only GET method is allowed")
    else Reply(StatusOK, HealthBody("healthy"))
  }
}

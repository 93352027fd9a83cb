/** The claims service (internal/service/claims.go): submission and reversal
    of a claim against the repository, with an audit event for each success.
    The fresh claim id and the clock are caller-supplied values, as are the
    outcomes of the repository's statements. */
module Claims {
  import opened Common
  import opened Models
  import opened Store
  import opened Database
  import opened Repository
  import Validator

  const ClaimSubmitted: string := "claim submitted"
  const ClaimReversed: string := "claim reversed"

  /** The error for a well-formed request naming an unknown pharmacy. */
  function PharmacyNotFoundText(npi: string): (e: string)
    ensures |e| == |npi| + 28 && e[18..18 + |npi|] == npi
  {
    "pharmacy with NPI " + npi + " not found"
  }

  /** The error for a reversal of an unknown claim. */
  function ClaimNotFoundText(id: Uuid): (e: string)
    ensures |e| == 60 && e[14..50] == UuidString(id)
  {
    "claim with ID " + UuidString(id) + " not found"
  }

  /** The claim a valid submission stores: the request's fields, the fresh id
      and the submission time. */
  function NewClaim(request: ClaimRequest, id: Uuid, now: Time): (c: Claim)
    ensures c.id == id && c.timestamp == now
    ensures c.ndc == request.ndc && c.npi == request.npi
    ensures c.quantity == request.quantity && c.price == request.price
  {
    Claim(id, request.ndc, request.quantity, request.npi, request.price, now)
  }

  /** The payload of "claim_submitted": the claim and its pharmacy's chain. */
  function ClaimSubmittedPayload(c: Claim, chain: string): (p: map<string, Value>)
    ensures p.Keys == {"claim_id", "ndc", "quantity", "npi", "price", "chain"}
    ensures p["claim_id"] == Text(UuidString(c.id)) && p["chain"] == Text(chain)
  {
    map["claim_id" := Text(UuidString(c.id)), "ndc" := Text(c.ndc), "quantity" := Number(c.quantity),
        "npi" := Text(c.npi), "price" := Number(c.price), "chain" := Text(chain)]
  }

  /** The payload of "claim_reversed": the original claim, the reason, and
      the chain only when the pharmacy lookup found one. */
  function ClaimReversedPayload(c: Claim, reason: string, chain: Option<string>): (p: map<string, Value>)
    ensures "chain" in p <==> chain.Some?
    ensures chain.Some? ==> p["chain"] == Text(chain.value)
    ensures p.Keys - {"chain"} == {"claim_id", "original_ndc", "original_quantity", "original_npi", "original_price", "reason"}
    ensures p["reason"] == Text(reason) && p["claim_id"] == Text(UuidString(c.id))
  {
    var base := map["claim_id" := Text(UuidString(c.id)), "original_ndc" := Text(c.ndc),
                    "original_quantity" := Number(c.quantity), "original_npi" := Text(c.npi),
                    "original_price" := Number(c.price), "reason" := Text(reason)];
    if chain.Some? then base["chain" := Text(chain.value)] else base
  }

  /** The chain recorded for a reversal: a failed lookup is only printed, and
      a missing pharmacy leaves the chain out. */
  function ChainForLog(ps: seq<Pharmacy>, npi: string, fault: Option<string>): (chain: Option<string>)
    ensures chain.Some? <==> fault.None? && HasNpi(ps, npi)
    ensures chain.Some? ==> exists i :: 0 <= i < |ps| && ps[i].npi == npi && ps[i].chain == chain.value
  {
    if fault.Some? then None
    else match FindPharmacy(ps, npi)
      case None => None
      case Some(p) => Some(p.chain)
  }

  /** The service error of a reversal the repository refused. */
  lemma AlreadyReversedText()
    ensures Wrap("failed to reverse claim", ClaimAlreadyReversed) == "failed to reverse claim: claim already reversed"
    ensures Wrap("failed to reverse claim", ClaimNotFound) == "failed to reverse claim: claim not found"
  {
  }

  class ClaimsService {
    const repo: Postgres
    const logger: Logger

    constructor (repo: Postgres, logger: Logger)
      ensures this.repo == repo && this.logger == logger
    {
      this.repo := repo;
      this.logger := logger;
    }

    /** ValidateClaim: the validator's verdict on the request. */
    method ValidateClaim(request: ClaimRequest) returns (err: Option<string>)
      ensures err == Validator.ValidateClaimRequest(request)
      ensures err.None? <==> Validator.WellFormed(request)
    {
      err := Validator.ValidateClaimRequest(request);
    }

    /** SubmitClaim: validate, look up the pharmacy, insert the claim, log
        "claim_submitted". Any failure leaves the store and the audit trail
        as they were. */
    method SubmitClaim(request: ClaimRequest, newId: Uuid, now: Time, lookupFault: Option<string>, createFault: Option<string>)
      returns (response: Option<ClaimResponse>, err: Option<string>)
      modifies repo.db, logger
      ensures response.Some? <==> err.None?
      ensures err.None? <==>
        && Validator.WellFormed(request) && lookupFault.None?
        && HasNpi(old(repo.db.tables).pharmacies, request.npi)
        && createFault.None? && !HasClaimId(old(repo.db.tables).claims, newId)
      ensures !Validator.WellFormed(request) ==> err == Validator.ValidateClaimRequest(request)
      ensures Validator.WellFormed(request) && lookupFault.Some? ==>
        err == Some(Wrap("failed to validate pharmacy", Wrap("failed to get pharmacy by NPI", lookupFault.value)))
      ensures Validator.WellFormed(request) && lookupFault.None? && !HasNpi(old(repo.db.tables).pharmacies, request.npi) ==>
        err == Some(PharmacyNotFoundText(request.npi))
      ensures (Validator.WellFormed(request) && lookupFault.None? && HasNpi(old(repo.db.tables).pharmacies, request.npi)
               && createFault.Some?) ==>
        err == Some(Wrap("failed to create claim", Wrap("failed to create claim", createFault.value)))
      ensures err.Some? ==> repo.db.tables == old(repo.db.tables) && logger.events == old(logger.events)
      ensures err.None? ==>
        && response == Some(ClaimResponse(ClaimSubmitted, newId))
        && repo.db.tables == old(repo.db.tables).(claims := old(repo.db.tables).claims + [NewClaim(request, newId, now)])
        && logger.events == old(logger.events) + [AuditEvent("claim_submitted",
             ClaimSubmittedPayload(NewClaim(request, newId, now), FindPharmacy(old(repo.db.tables).pharmacies, request.npi).value.chain))]
    {
      err := ValidateClaim(request);
      if err.Some? {
        return None, err;
      }
      var pharmacy, lookupErr := repo.GetPharmacyByNPI(request.npi, lookupFault);
      if lookupErr.Some? {
        return None, Some(Wrap("failed to validate pharmacy", lookupErr.value));
      }
      if pharmacy.None? {
        return None, Some(PharmacyNotFoundText(request.npi));
      }
      var claim := NewClaim(request, newId, now);
      var createErr := repo.CreateClaim(claim, createFault);
      if createErr.Some? {
        return None, Some(Wrap("failed to create claim", createErr.value));
      }
      logger.LogEvent("claim_submitted", ClaimSubmittedPayload(claim, pharmacy.value.chain));
      response := Some(ClaimResponse(ClaimSubmitted, claim.id));
    }

    /** ReverseClaim: fetch the claim, run the repository's reversal
        transaction, then look up the pharmacy for the audit event and log
        "claim_reversed". A failed pharmacy lookup is only printed. The
        repository's transaction helper loses a commit error, so success is
        decided by the work alone, not by the commit. */
    method ReverseClaim(request: ReversalRequest, fetchFault: Option<string>, reversalId: Uuid, now: Time,
                        f: ReversalFaults, chainFault: Option<string>)
      returns (response: Option<ReversalResponse>, err: Option<string>)
      modifies repo.db, logger
      ensures response.Some? <==> err.None?
      ensures fetchFault.Some? ==>
        err == Some(Wrap("failed to get claim", Wrap("failed to get claim by ID", fetchFault.value)))
      ensures fetchFault.None? && !HasClaimId(old(repo.db.tables).claims, request.claimId) ==>
        err == Some(ClaimNotFoundText(request.claimId))
      ensures fetchFault.Some? || !HasClaimId(old(repo.db.tables).claims, request.claimId) ==>
        repo.db.tables == old(repo.db.tables) && logger.events == old(logger.events)
      ensures fetchFault.None? && HasClaimId(old(repo.db.tables).claims, request.claimId) ==>
        var work := ReverseClaimWork(old(repo.db.tables), request.claimId, reversalId, now, f);
        && repo.db.tables == (if TxCommits(f.begin, work.1, f.commit) then work.0 else old(repo.db.tables))
        && (err.None? <==> TxReturn(f.begin, work.1).None?)
        && (err.Some? ==>
              err == Some(Wrap("failed to reverse claim", TxReturn(f.begin, work.1).value))
              && logger.events == old(logger.events))
        && (err.None? ==>
              var claim := FindClaim(old(repo.db.tables).claims, request.claimId).value;
              && response == Some(ReversalResponse(ClaimReversed, request.claimId))
              && logger.events == old(logger.events) + [AuditEvent("claim_reversed",
                   ClaimReversedPayload(claim, request.reason, ChainForLog(old(repo.db.tables).pharmacies, claim.npi, chainFault)))])
    {
      var claim, fetchErr := repo.GetClaimByID(request.claimId, fetchFault);
      if fetchErr.Some? {
        return None, Some(Wrap("failed to get claim", fetchErr.value));
      }
      if claim.None? {
        return None, Some(ClaimNotFoundText(request.claimId));
      }
      var reverseErr := repo.ReverseClaim(request.claimId, request.reason, reversalId, now, f);
      if reverseErr.Some? {
        return None, Some(Wrap("failed to reverse claim", reverseErr.value));
      }
      response, err := LogReversal(claim.value, request.reason, chainFault);
    }

    /** ReverseClaim as evidently intended: the repository reports a failed
        commit, so the service succeeds, and logs, exactly when the reversal
        was stored. */
    method ReverseClaimChecked(request: ReversalRequest, fetchFault: Option<string>, reversalId: Uuid, now: Time,
                               f: ReversalFaults, chainFault: Option<string>)
      returns (response: Option<ReversalResponse>, err: Option<string>)
      modifies repo.db, logger
      ensures response.Some? <==> err.None?
      ensures fetchFault.Some? ==>
        err == Some(Wrap("failed to get claim", Wrap("failed to get claim by ID", fetchFault.value)))
      ensures fetchFault.None? && !HasClaimId(old(repo.db.tables).claims, request.claimId) ==>
        err == Some(ClaimNotFoundText(request.claimId))
      ensures fetchFault.Some? || !HasClaimId(old(repo.db.tables).claims, request.claimId) ==>
        repo.db.tables == old(repo.db.tables) && logger.events == old(logger.events)
      ensures fetchFault.None? && HasClaimId(old(repo.db.tables).claims, request.claimId) ==>
        var work := ReverseClaimWork(old(repo.db.tables), request.claimId, reversalId, now, f);
        && (err.None? <==> TxCommits(f.begin, work.1, f.commit))
        && repo.db.tables == (if err.None? then work.0 else old(repo.db.tables))
        && (err.Some? ==>
              err == Some(Wrap("failed to reverse claim", TxReturnChecked(f.begin, work.1, f.commit).value))
              && logger.events == old(logger.events))
        && (err.None? ==>
              var claim := FindClaim(old(repo.db.tables).claims, request.claimId).value;
              && response == Some(ReversalResponse(ClaimReversed, request.claimId))
              && logger.events == old(logger.events) + [AuditEvent("claim_reversed",
                   ClaimReversedPayload(claim, request.reason, ChainForLog(old(repo.db.tables).pharmacies, claim.npi, chainFault)))])
    {
      var claim, fetchErr := repo.GetClaimByID(request.claimId, fetchFault);
      if fetchErr.Some? {
        return None, Some(Wrap("failed to get claim", fetchErr.value));
      }
      if claim.None? {
        return None, Some(ClaimNotFoundText(request.claimId));
      }
      var reverseErr := repo.ReverseClaimChecked(request.claimId, request.reason, reversalId, now, f);
      if reverseErr.Some? {
        return None, Some(Wrap("failed to reverse claim", reverseErr.value));
      }
      response, err := LogReversal(claim.value, request.reason, chainFault);
    }

    /** The tail of ReverseClaim after the repository succeeded: look up the
        pharmacy, log "claim_reversed" and answer with the claim's id. */
    method LogReversal(claim: Claim, reason: string, chainFault: Option<string>)
      returns (response: Option<ReversalResponse>, err: Option<string>)
      modifies logger
      ensures err.None? && response == Some(ReversalResponse(ClaimReversed, claim.id))
      ensures logger.events == old(logger.events) + [AuditEvent("claim_reversed",
        ClaimReversedPayload(claim, reason, ChainForLog(repo.db.tables.pharmacies, claim.npi, chainFault)))]
    {
      var pharmacy, _ := repo.GetPharmacyByNPI(claim.npi, chainFault);
      var chain := if pharmacy.Some? then Some(pharmacy.value.chain) else None;
      logger.LogEvent("claim_reversed", ClaimReversedPayload(claim, reason, chain));
      response := Some(ReversalResponse(ClaimReversed, claim.id));
      err := None;
    }
  }
}

/** The records the service stores and exchanges, and the audit sink. */
module Models {
  import opened Common

  /** A row of the pharmacies table. The serial `id` column is not modelled:
      nothing in the claim logic reads it. */
  datatype Pharmacy = Pharmacy(npi: string, chain: string)

  /** Quantities and prices are float64 in the service; only their signs are
      ever inspected, so they are reals here. */
  datatype Claim = Claim(id: Uuid, ndc: string, quantity: real, npi: string, price: real, timestamp: Time)

  datatype Reversal = Reversal(id: Uuid, claimId: Uuid, timestamp: Time)

  datatype ClaimRequest = ClaimRequest(ndc: string, quantity: real, npi: string, price: real)

  /** What a JSON `null` body decodes to: every field at its zero value. */
  const ZeroClaimRequest: ClaimRequest := ClaimRequest("", 0.0, "", 0.0)

  datatype ReversalRequest = ReversalRequest(claimId: Uuid, reason: string)

  datatype ClaimResponse = ClaimResponse(status: string, claimId: Uuid)

  datatype ReversalResponse = ReversalResponse(status: string, claimId: Uuid)

  /** A value in an audit payload. */
  datatype Value = Text(text: string) | Number(number: real)

  /** One call of the audit sink: an event kind and its payload. The sink adds
      a timestamp and writes a file; neither is modelled. */
  datatype AuditEvent = AuditEvent(kind: string, payload: map<string, Value>)

  /** The audit sink (a file logger in the service). Writes are fire-and-forget,
      so the model records every event that was attempted. */
  class Logger {
    var events: seq<AuditEvent>

    constructor ()
      ensures events == []
    {
      events := [];
    }

    method LogEvent(kind: string, payload: map<string, Value>)
      modifies this
      ensures events == old(events) + [AuditEvent(kind, payload)]
    {
      events := events + [AuditEvent(kind, payload)];
    }
  }
}

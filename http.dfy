/** What the route handlers send back, and the shared-secret check the print
    agent and fixture endpoints apply. */
module Http {
  import opened JsValues
  import opened Db
  import opened Gating

  /** The environment settings the handlers read; `""` means not configured. */
  datatype Config = Config(fixtureToken: string, printAgentToken: string)

  /** One HTTP reply. `SchemaRejected` is the 400 a request body that fails its
      schema gets; `BadRequest` carries the error text of every other 400. */
  datatype Reply =
    | Ok
    | SchemaRejected
    | BadRequest(error: string)
    | Unauthorized(error: string)
    | GateBlocked(gate: GateResult)
    | Packed(gate: GateResult)
    | UnitDetails(unit: Option<Unit>, lastTest: Option<TestRun>, gate: GateResult)
    | JobQueued(job: PrintJob)
    | NextJob(claimed: Option<PrintJob>)
  {
    /** The HTTP status code. */
    function StatusCode(): int {
      if SchemaRejected? || BadRequest? then 400
      else if Unauthorized? then 401
      else if GateBlocked? then 409
      else 200
    }
  }

  /** `configured && token !== configured` rejects: a header is accepted when no
      token is configured or it carries exactly the configured one. A missing
      header reads as `""`. */
  function TokenAccepted(configured: string, header: Option<string>): (ok: bool)
    ensures ok <==> configured == "" || header == Some(configured)
  {
    configured == "" || header.GetOr("") == configured
  }
}

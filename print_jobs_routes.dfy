/** The print-job handlers: operators queue jobs; the print agent, holding the
    shared agent token, claims them and reports them done or failed. */
module PrintJobsRoutes {
  import opened JsValues
  import opened Db
  import opened Gating
  import opened Http
  import GatingProperties

  /** The fields of a create request body; any of them may be missing. */
  datatype CreateJobBody = CreateJobBody(
    jobType: Option<string>, sn: Option<string>, payload: Option<Payload>, stationId: Option<string>)

  /** The body of a done or fail report from the agent. */
  datatype AgentReport = AgentReport(sn: Option<string>, stationId: Option<string>, error: Option<string>)

  /** Queues a print job. A missing or empty job type is refused before anything is
      written; otherwise the job is stored as QUEUED under a fresh id and its
      creation is logged. */
  method CreatePrintJob(db: Database, body: CreateJobBody, operator: string, insertError: Option<string>)
    returns (reply: Reply)
    requires db.Valid()
    modifies db
    ensures db.Valid()
    ensures !Truthy(body.jobType) ==> reply == BadRequest("job_type required") && db.Snapshot() == old(db.Snapshot())
    ensures Truthy(body.jobType) && insertError.Some? ==>
              reply == BadRequest(insertError.value) && db.Snapshot() == old(db.Snapshot())
    ensures Truthy(body.jobType) && insertError.None? ==>
              var job := PrintJob(old(db.nextJobId), body.jobType.value, body.sn, body.payload.GetOr(map[]), "QUEUED", None);
              && reply == JobQueued(job)
              && job.id !in old(db.printJobs)
              && db.Snapshot() == old(db.Snapshot()).(
                   printJobs := old(db.printJobs)[job.id := job],
                   nextJobId := old(db.nextJobId) + 1,
                   events := old(db.events) + [Event(body.sn, "PRINT_JOB_CREATED", body.stationId, Some(operator),
                                                     JobCreatedPayload(job.id, job.jobType))])
  {
    if !Truthy(body.jobType) {
      return BadRequest("job_type required");
    }
    if insertError.Some? {
      return BadRequest(insertError.value);
    }
    var job := db.InsertPrintJob(body.jobType.value, body.sn, body.payload.GetOr(map[]), "QUEUED");
    db.AppendEvent(Event(body.sn, "PRINT_JOB_CREATED", body.stationId, Some(operator),
                         JobCreatedPayload(job.id, job.jobType)));
    reply := JobQueued(job);
  }

  /** The agent asks for its next job. The token is checked first, then the
      trimmed `agent_id` must be non-blank; only then is the claim procedure
      called, with the trimmed id (`claimedFor`). The procedure itself is opaque:
      `claimError` is its failure and `claimed` the job it hands out, if any. */
  method Next(config: Config, token: Option<string>, agentId: Option<string>,
              claimError: Option<string>, claimed: Option<PrintJob>)
    returns (reply: Reply, claimedFor: Option<string>)
    ensures reply.StatusCode() ==
              if !TokenAccepted(config.printAgentToken, token) then 401
              else if Blank(agentId.GetOr("")) || claimError.Some? then 400 else 200
    ensures !TokenAccepted(config.printAgentToken, token) ==>
              reply == Unauthorized("Invalid agent token") && claimedFor.None?
    ensures TokenAccepted(config.printAgentToken, token) && Blank(agentId.GetOr("")) ==>
              reply == BadRequest("agent_id required") && claimedFor.None?
    ensures claimedFor.Some? <==> TokenAccepted(config.printAgentToken, token) && !Blank(agentId.GetOr(""))
    ensures claimedFor.Some? ==>
              && claimedFor.value == Trim(agentId.GetOr(""))
              && claimedFor.value != []
              && !IsJsWhitespace(claimedFor.value[0])
              && !IsJsWhitespace(claimedFor.value[|claimedFor.value| - 1])
              && reply == (if claimError.Some? then BadRequest(claimError.value) else NextJob(claimed))
  {
    if !TokenAccepted(config.printAgentToken, token) {
      return Unauthorized("Invalid agent token"), None;
    }
    var id := Trim(agentId.GetOr(""));
    TrimBlank(agentId.GetOr(""));
    if id == [] {
      return BadRequest("agent_id required"), None;
    }
    TrimSlice(agentId.GetOr(""));
    claimedFor := Some(id);
    if claimError.Some? {
      reply := BadRequest(claimError.value);
    } else {
      reply := NextJob(claimed);
    }
  }

  /** The agent reports a job printed. The job with that id, if any, becomes DONE
      (whatever its status was) unless the update fails (`updateError`), which
      the handler ignores; the report is logged only when it names a unit, and
      the reply is 200 either way. A printed device label clears the unit's
      `DEVICE_LABEL_NOT_PRINTED`. */
  method MarkDone(db: Database, config: Config, token: Option<string>, id: JobId, body: AgentReport,
                  updateError: Option<string>)
    returns (reply: Reply)
    requires db.Valid()
    modifies db
    ensures db.Valid()
    ensures !TokenAccepted(config.printAgentToken, token) ==>
              reply == Unauthorized("Invalid agent token") && db.Snapshot() == old(db.Snapshot())
    ensures TokenAccepted(config.printAgentToken, token) ==>
              && reply == Ok
              && db.Snapshot() == old(db.Snapshot()).(
                   printJobs := if updateError.None? then UpdateJob(old(db.printJobs), id, JobPatch("DONE", None))
                                else old(db.printJobs),
                   events := old(db.events) +
                     (if Truthy(body.sn) then [Event(body.sn, "PRINT_JOB_DONE", body.stationId, None, JobDonePayload(id))]
                      else []))
              && (updateError.None? && id in db.printJobs ==> db.printJobs[id].status == "DONE")
    ensures TokenAccepted(config.printAgentToken, token) && updateError.None? && id in old(db.printJobs)
            && old(db.printJobs[id]).jobType == "device_label" && old(db.printJobs[id]).sn.Some? ==>
              var unit := old(db.printJobs[id]).sn.value;
              LabelPrinted(db.printJobs, unit) && DeviceLabelNotPrinted !in Evaluate(db.Snapshot(), unit).blockers
  {
    if !TokenAccepted(config.printAgentToken, token) {
      return Unauthorized("Invalid agent token");
    }
    if updateError.None? {
      db.UpdatePrintJob(id, JobPatch("DONE", None));
    }
    if Truthy(body.sn) {
      db.AppendEvent(Event(body.sn, "PRINT_JOB_DONE", body.stationId, None, JobDonePayload(id)));
    }
    if updateError.None? && id in db.printJobs && db.printJobs[id].jobType == "device_label" && db.printJobs[id].sn.Some? {
      GatingProperties.PrintedLabelClears(db.Snapshot(), id, db.printJobs[id].sn.value);
    }
    reply := Ok;
  }

  /** The agent reports a job failed. The job with that id, if any, becomes FAIL
      with the reported error, "unknown" when none is given, unless the update
      fails (`updateError`), which the handler ignores; the report is logged only
      when it names a unit, and the reply is 200 either way. */
  method MarkFailed(db: Database, config: Config, token: Option<string>, id: JobId, body: AgentReport,
                    updateError: Option<string>)
    returns (reply: Reply)
    requires db.Valid()
    modifies db
    ensures db.Valid()
    ensures !TokenAccepted(config.printAgentToken, token) ==>
              reply == Unauthorized("Invalid agent token") && db.Snapshot() == old(db.Snapshot())
    ensures TokenAccepted(config.printAgentToken, token) ==>
              var error := body.error.GetOr("unknown");
              && reply == Ok
              && db.Snapshot() == old(db.Snapshot()).(
                   printJobs := if updateError.None? then UpdateJob(old(db.printJobs), id, JobPatch("FAIL", Some(error)))
                                else old(db.printJobs),
                   events := old(db.events) +
                     (if Truthy(body.sn) then [Event(body.sn, "PRINT_JOB_FAIL", body.stationId, None, JobFailPayload(id, error))]
                      else []))
              && (updateError.None? && id in db.printJobs ==>
                    db.printJobs[id].status == "FAIL" && db.printJobs[id].error == Some(error))
  {
    if !TokenAccepted(config.printAgentToken, token) {
      return Unauthorized("Invalid agent token");
    }
    var error := body.error.GetOr("unknown");
    if updateError.None? {
      db.UpdatePrintJob(id, JobPatch("FAIL", Some(error)));
    }
    if Truthy(body.sn) {
      db.AppendEvent(Event(body.sn, "PRINT_JOB_FAIL", body.stationId, None, JobFailPayload(id, error)));
    }
    reply := Ok;
  }
}

/** Fixture test ingestion: a test fixture, holding the shared fixture token,
    posts one result; it is stored as the unit's newest test run, logged, and on
    PASS the unit row is updated. */
module TestResultsRoutes {
  import opened JsValues
  import opened Db
  import opened Gating
  import opened Http
  import GatingProperties

  /** A detected field as the PASS update writes it: a supplied value is written,
      an absent one leaves the column alone. */
  function Supplied(x: Option<string>): Option<Option<string>> {
    if x.Some? then Some(x) else None
  }

  /** The update a passing result writes to its unit. */
  function TestPassPatch(b: FixtureTestResult): UnitPatch {
    UnitPatch("TEST_PASS", Supplied(b.hwRevDetected), Supplied(b.fwVersionDetected), Supplied(b.fwBuildHash))
  }

  /** The `test_runs` row a result is stored as. */
  function RunOfResult(b: FixtureTestResult): TestRun {
    TestRun(b.sn, b.fixtureId, b.result.Text(), b.metrics.GetOr(map[]), b.fwReadback.GetOr(map[]))
  }

  /** The journal row a stored result is logged with. */
  function ResultEvent(b: FixtureTestResult): Event {
    Event(Some(b.sn), if b.result == Pass then "TEST_PASS" else "TEST_FAIL",
          Some(b.stationId.GetOr("FIXTURE:" + b.fixtureId)), None,
          TestPayload(b.metrics.GetOr(map[]), b.fwReadback.GetOr(map[])))
  }

  /** Once a result's run is the unit's latest, the gate's test checks follow the
      result: never `NO_TEST_RUN`, and `TEST_NOT_PASS` exactly for a FAIL of an
      existing unit. */
  lemma GateJudgesStoredRun(t: Tables, b: FixtureTestResult)
    requires LatestTest(t, b.sn) == Some(RunOfResult(b))
    ensures NoTestRun !in Evaluate(t, b.sn).blockers
    ensures TestNotPass in Evaluate(t, b.sn).blockers <==> b.result == Fail && b.sn in t.units
  {
    ResultSpellings();
    GatingProperties.LatestRunDecides(t, b.sn, RunOfResult(b));
  }

  /** Ingests one fixture result. The token is checked first, then the body, then
      the insert; any failure changes nothing. After a stored result the gate
      judges that run: a PASS clears `NO_TEST_RUN` and `TEST_NOT_PASS`, a FAIL of
      an existing unit reports `TEST_NOT_PASS`. A failure of the PASS update
      (`updateError`) is ignored: the unit row stays as it was and the reply is
      still 200. */
  method IngestTestResult(db: Database, config: Config, token: Option<string>, body: Option<FixtureTestResult>,
                          insertError: Option<string>, updateError: Option<string>)
    returns (reply: Reply)
    requires db.Valid()
    modifies db
    ensures db.Valid()
    ensures !TokenAccepted(config.fixtureToken, token) ==>
              reply == Unauthorized("Invalid fixture token") && db.Snapshot() == old(db.Snapshot())
    ensures TokenAccepted(config.fixtureToken, token) && body.None? ==>
              reply == SchemaRejected && db.Snapshot() == old(db.Snapshot())
    ensures TokenAccepted(config.fixtureToken, token) && body.Some? && insertError.Some? ==>
              reply == BadRequest(insertError.value) && db.Snapshot() == old(db.Snapshot())
    ensures TokenAccepted(config.fixtureToken, token) && body.Some? && insertError.None? ==>
              var b := body.value;
              && reply == Ok
              && db.Snapshot() == old(db.Snapshot()).(
                   units := if b.result == Pass && updateError.None? then UpdateUnit(old(db.units), b.sn, TestPassPatch(b)) else old(db.units),
                   testRuns := old(db.testRuns) + [RunOfResult(b)],
                   events := old(db.events) + [ResultEvent(b)])
              && (b.result == Pass && updateError.None? && b.sn in old(db.units) ==>
                    && db.units[b.sn].status == "TEST_PASS"
                    && db.units[b.sn].hwRevDetected == (if b.hwRevDetected.Some? then b.hwRevDetected
                                                        else old(db.units[b.sn].hwRevDetected))
                    && db.units[b.sn].fwVersionDetected == (if b.fwVersionDetected.Some? then b.fwVersionDetected
                                                            else old(db.units[b.sn].fwVersionDetected))
                    && db.units[b.sn].fwBuildHash == (if b.fwBuildHash.Some? then b.fwBuildHash
                                                      else old(db.units[b.sn].fwBuildHash)))
              && LatestTest(db.Snapshot(), b.sn) == Some(RunOfResult(b))
              && NoTestRun !in Evaluate(db.Snapshot(), b.sn).blockers
              && (TestNotPass in Evaluate(db.Snapshot(), b.sn).blockers <==> b.result == Fail && b.sn in db.units)
  {
    if !TokenAccepted(config.fixtureToken, token) {
      return Unauthorized("Invalid fixture token");
    }
    if body.None? {
      return SchemaRejected;
    }
    var b := body.value;
    if insertError.Some? {
      return BadRequest(insertError.value);
    }
    ghost var runs0 := db.testRuns;
    var run := RunOfResult(b);
    db.InsertTestRun(run);
    db.AppendEvent(ResultEvent(b));
    if b.result == Pass && updateError.None? {
      db.UpdateUnits(b.sn, TestPassPatch(b));
    }
    LatestAppend(runs0, run, RunOf(b.sn));
    GateJudgesStoredRun(db.Snapshot(), b);
    reply := Ok;
  }
}

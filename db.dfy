/** The record store the MES handlers read and write: one map per keyed table,
    one sequence per append-only table (append order stands for `created_at`),
    the typed request bodies the handlers accept, and the journal payloads. */
module Db {
  import opened JsValues

  // ---------------------------------------------------------------------------
  // Rows

  /** A `serialized_units` row. `status` is free text in the store: the handlers
      write "FLASHED", "ASSEMBLED", "TEST_PASS", "PACKED" and "IN_FINISHED_STOCK",
      database procedures write others. */
  datatype Unit = Unit(
    sn: string,
    status: string,
    variantId: Option<string>,
    serialClass: Option<string>,
    hwRevDetected: Option<string>,
    fwVersionDetected: Option<string>,
    fwBuildHash: Option<string>)

  /** A `product_variants` row. */
  datatype Variant = Variant(
    variantId: string,
    variantCode: string,
    defaultLanguageSet: string,
    finishedItemId: string)

  /** `variant_rules.firmware_policy`; `{}` is `FirmwarePolicy(None, Unset)`. */
  datatype FirmwarePolicy = FirmwarePolicy(requiredPrefix: Option<string>, requireBuildHash: JsonFlag)

  const EmptyFirmwarePolicy := FirmwarePolicy(None, Unset)

  /** `variant_rules.packaging_policy`. */
  datatype PackagingPolicy = PackagingPolicy(requireDeviceLabel: JsonFlag)

  /** A `variant_rules` row; the JSON columns may be null. */
  datatype VariantRules = VariantRules(
    variantId: string,
    allowedHwRevs: Option<seq<string>>,
    firmwarePolicy: Option<FirmwarePolicy>,
    packagingPolicy: Option<PackagingPolicy>,
    manualPolicy: Payload)

  /** A `packaging_kits` row. */
  datatype Kit = Kit(
    kitId: string,
    compatibleVariantCodes: seq<string>,
    languageSet: string,
    active: JsonFlag,
    insertVersions: Payload)

  /** A `test_runs` row. `result` is free text: the gate upper-cases it. */
  datatype TestRun = TestRun(
    sn: string,
    fixtureId: string,
    result: string,
    metrics: Payload,
    fwReadback: Payload)

  type JobId = nat

  /** A `print_jobs` row. */
  datatype PrintJob = PrintJob(
    id: JobId,
    jobType: string,
    sn: Option<string>,
    payload: Payload,
    status: string,
    error: Option<string>)

  /** An `inventory_ledger` row. */
  datatype LedgerEntry = LedgerEntry(
    itemId: string,
    locationId: string,
    movementType: string,
    qty: int,
    refType: string,
    refId: string,
    createdBy: string)

  // ---------------------------------------------------------------------------
  // Request bodies, as the request schemas type them

  datatype AssignVariantRequest = AssignVariantRequest(
    variantId: string, assignedProductCode: string, stationId: Option<string>)

  datatype FlashRequest = FlashRequest(
    stationId: Option<string>,
    hwRevDetected: Option<string>,
    fwVersionDetected: Option<string>,
    fwBuildHash: Option<string>)

  datatype AssembleRequest = AssembleRequest(stationId: Option<string>, notes: Option<string>)

  datatype ScanKitRequest = ScanKitRequest(stationId: Option<string>, kitId: string)

  datatype MoveToStockRequest = MoveToStockRequest(
    stationId: Option<string>, finishedItemId: string, locationId: string)

  datatype Verdict = Pass | Fail {
    /** The text stored in `test_runs.result`. */
    function Text(): string {
      if Pass? then "PASS" else "FAIL"
    }
  }

  datatype FixtureTestResult = FixtureTestResult(
    sn: string,
    fixtureId: string,
    result: Verdict,
    metrics: Option<Payload>,
    fwReadback: Option<Payload>,
    hwRevDetected: Option<string>,
    fwVersionDetected: Option<string>,
    fwBuildHash: Option<string>,
    stationId: Option<string>)

  // ---------------------------------------------------------------------------
  // Journal

  /** The payload of a `unit_events` row, one shape per writer. `OtherPayload` stands for
      rows written outside this core; the gate still reads a `kit_id` key from them. */
  datatype EventPayload =
    | AssignedPayload(variantId: string, assignedProductCode: string)
    | FlashPayload(flash: FlashRequest)
    | AssemblyPayload(assembly: AssembleRequest)
    | KitScannedPayload(kitId: string)
    | FinalizedPayload(allowed: bool, blockers: seq<string>)
    | MovedPayload(finishedItemId: string, locationId: string)
    | TestPayload(metrics: Payload, fwReadback: Payload)
    | JobCreatedPayload(printJobId: JobId, jobType: string)
    | JobDonePayload(printJobId: JobId)
    | JobFailPayload(printJobId: JobId, error: string)
    | OtherPayload(fields: Payload)

  /** `payload.kit_id`, if the payload has one. */
  function KitIdOf(p: EventPayload): Option<string> {
    match p
    case KitScannedPayload(kitId) => Some(kitId)
    case OtherPayload(fields) => if "kit_id" in fields then Some(fields["kit_id"]) else None
    case _ => None
  }

  /** A `unit_events` row. */
  datatype Event = Event(
    sn: Option<string>,
    eventType: string,
    stationId: Option<string>,
    operatorId: Option<string>,
    payload: EventPayload)

  // ---------------------------------------------------------------------------
  // "Latest row" queries

  /** The last row satisfying `matches`: what `order("created_at", desc).limit(1)`
      returns when rows are appended in time order. */
  function Latest<T>(rows: seq<T>, matches: T -> bool): (r: Option<T>)
    ensures r.None? <==> forall i :: 0 <= i < |rows| ==> !matches(rows[i])
    ensures r.Some? ==> exists i :: 0 <= i < |rows| && rows[i] == r.value && matches(rows[i])
                          && forall j :: i < j < |rows| ==> !matches(rows[j])
    decreases |rows|
  {
    if rows == [] then None
    else if matches(rows[|rows| - 1]) then Some(rows[|rows| - 1])
    else Latest(rows[..|rows| - 1], matches)
  }

  /** A newly appended matching row is the latest one; a non-matching row changes nothing. */
  lemma LatestAppend<T>(rows: seq<T>, x: T, matches: T -> bool)
    ensures Latest(rows + [x], matches) == if matches(x) then Some(x) else Latest(rows, matches)
  {
    assert (rows + [x])[..|rows|] == rows;
  }

  /** Rows before a later matching row never decide the latest one. */
  lemma {:induction false} LatestIgnoresEarlier<T>(earlier: seq<T>, later: seq<T>, matches: T -> bool)
    requires exists i :: 0 <= i < |later| && matches(later[i])
    ensures Latest(earlier + later, matches) == Latest(later, matches)
  {
    var n := |later| - 1;
    assert earlier + later == (earlier + later[..n]) + [later[n]];
    assert later == later[..n] + [later[n]];
    LatestAppend(earlier + later[..n], later[n], matches);
    LatestAppend(later[..n], later[n], matches);
    if !matches(later[n]) {
      var i :| 0 <= i < |later| && matches(later[i]);
      assert later[..n][i] == later[i];
      LatestIgnoresEarlier(earlier, later[..n], matches);
    }
  }

  /** The test runs of one unit. */
  function RunOf(sn: string): TestRun -> bool {
    (r: TestRun) => r.sn == sn
  }

  /** The packaging-kit scans of one unit. */
  function KitScanOf(sn: string): Event -> bool {
    (e: Event) => e.sn == Some(sn) && e.eventType == "PACK_KIT_SCANNED"
  }

  // ---------------------------------------------------------------------------
  // Row updates

  /** The columns one `serialized_units` update writes. `status` is always written;
      for a detected field, `None` leaves the column alone (the key is `undefined`
      in the update object) and `Some(v)` writes `v`, where `Some(None)` writes null. */
  datatype UnitPatch = UnitPatch(
    status: string,
    hwRev: Option<Option<string>>,
    fwVersion: Option<Option<string>>,
    buildHash: Option<Option<string>>)

  /** An update that writes the status and nothing else. */
  function StatusOnly(status: string): UnitPatch {
    UnitPatch(status, None, None, None)
  }

  /** A status-only update changes the status column and nothing else. */
  lemma StatusOnlyPatch(u: Unit, status: string)
    ensures Patched(u, StatusOnly(status)) == u.(status := status)
  {
  }

  /** The row after an update writes `p` to it. */
  function Patched(u: Unit, p: UnitPatch): Unit {
    u.(status := p.status,
       hwRevDetected := p.hwRev.GetOr(u.hwRevDetected),
       fwVersionDetected := p.fwVersion.GetOr(u.fwVersionDetected),
       fwBuildHash := p.buildHash.GetOr(u.fwBuildHash))
  }

  /** `update(p).eq("sn", sn)`: the row keyed `sn`, if there is one, is patched; no
      other row changes and no row is added. A missing `sn` is not an error. */
  function UpdateUnit(units: map<string, Unit>, sn: string, p: UnitPatch): (r: map<string, Unit>)
    ensures r.Keys == units.Keys
    ensures forall k :: k in r && k != sn ==> r[k] == units[k]
    ensures sn in r ==> r[sn] == Patched(units[sn], p)
  {
    if sn in units then units[sn := Patched(units[sn], p)] else units
  }

  /** The columns one `print_jobs` update writes: the status, and the error text
      when `error` is `Some`. */
  datatype JobPatch = JobPatch(status: string, error: Option<string>)

  /** `update(p).eq("print_job_id", id)`: only the job with that id, if any, changes. */
  function UpdateJob(jobs: map<JobId, PrintJob>, id: JobId, p: JobPatch): (r: map<JobId, PrintJob>)
    ensures r.Keys == jobs.Keys
    ensures forall k :: k in r && k != id ==> r[k] == jobs[k]
    ensures id in r ==>
              && r[id].status == p.status
              && r[id].error == (if p.error.Some? then p.error else jobs[id].error)
              && r[id].id == jobs[id].id && r[id].jobType == jobs[id].jobType
              && r[id].sn == jobs[id].sn && r[id].payload == jobs[id].payload
  {
    if id in jobs then
      jobs[id := jobs[id].(status := p.status, error := if p.error.Some? then p.error else jobs[id].error)]
    else jobs
  }

  /** Writing the same job update twice is the same as writing it once, so a
      repeated done (or fail) report leaves the job as the first left it. */
  lemma UpdateJobIdempotent(jobs: map<JobId, PrintJob>, id: JobId, p: JobPatch)
    ensures UpdateJob(UpdateJob(jobs, id, p), id, p) == UpdateJob(jobs, id, p)
  {
  }

  // ---------------------------------------------------------------------------
  // The store

  /** A value snapshot of every table. */
  datatype Tables = Tables(
    units: map<string, Unit>,
    variants: map<string, Variant>,
    rules: map<string, VariantRules>,
    kits: map<string, Kit>,
    testRuns: seq<TestRun>,
    events: seq<Event>,
    ledger: seq<LedgerEntry>,
    printJobs: map<JobId, PrintJob>,
    nextJobId: JobId)

  /** The shared database the handlers update in place. */
  class Database {
    var units: map<string, Unit>
    var variants: map<string, Variant>
    var rules: map<string, VariantRules>
    var kits: map<string, Kit>
    var testRuns: seq<TestRun>
    var events: seq<Event>
    var ledger: seq<LedgerEntry>
    var printJobs: map<JobId, PrintJob>
    var nextJobId: JobId

    /** Keyed tables hold each row under its own key, and job ids still to be
        handed out are unused. */
    ghost predicate Valid()
      reads this
    {
      && (forall sn :: sn in units ==> units[sn].sn == sn)
      && (forall id :: id in printJobs ==> printJobs[id].id == id && id < nextJobId)
    }

    function Snapshot(): Tables
      reads this
    {
      Tables(units, variants, rules, kits, testRuns, events, ledger, printJobs, nextJobId)
    }

    /** A store with the given units and reference data and empty append-only tables. */
    constructor (units0: map<string, Unit>, variants0: map<string, Variant>,
                 rules0: map<string, VariantRules>, kits0: map<string, Kit>)
      requires forall sn :: sn in units0 ==> units0[sn].sn == sn
      ensures Valid()
      ensures Snapshot() == Tables(units0, variants0, rules0, kits0, [], [], [], map[], 0)
    {
      units, variants, rules, kits := units0, variants0, rules0, kits0;
      testRuns, events, ledger := [], [], [];
      printJobs, nextJobId := map[], 0;
    }

    /** `serialized_units.update(p).eq("sn", sn)` */
    method UpdateUnits(sn: string, p: UnitPatch)
      requires Valid()
      modifies this
      ensures Valid()
      ensures Snapshot() == old(Snapshot()).(units := UpdateUnit(old(units), sn, p))
    {
      units := UpdateUnit(units, sn, p);
    }

    /** `test_runs.insert(r)` */
    method InsertTestRun(r: TestRun)
      requires Valid()
      modifies this
      ensures Valid()
      ensures Snapshot() == old(Snapshot()).(testRuns := old(testRuns) + [r])
    {
      testRuns := testRuns + [r];
    }

    /** `inventory_ledger.insert(e)` */
    method InsertLedgerEntry(e: LedgerEntry)
      requires Valid()
      modifies this
      ensures Valid()
      ensures Snapshot() == old(Snapshot()).(ledger := old(ledger) + [e])
    {
      ledger := ledger + [e];
    }

    /** `print_jobs.insert(...).select("*").single()`: the new row gets a fresh id. */
    method InsertPrintJob(jobType: string, sn: Option<string>, payload: Payload, status: string)
      returns (job: PrintJob)
      requires Valid()
      modifies this
      ensures Valid()
      ensures job == PrintJob(old(nextJobId), jobType, sn, payload, status, None)
      ensures job.id !in old(printJobs)
      ensures Snapshot() == old(Snapshot()).(printJobs := old(printJobs)[job.id := job],
                                             nextJobId := old(nextJobId) + 1)
    {
      job := PrintJob(nextJobId, jobType, sn, payload, status, None);
      printJobs := printJobs[job.id := job];
      nextJobId := nextJobId + 1;
    }

    /** `print_jobs.update(p).eq("print_job_id", id)` */
    method UpdatePrintJob(id: JobId, p: JobPatch)
      requires Valid()
      modifies this
      ensures Valid()
      ensures Snapshot() == old(Snapshot()).(printJobs := UpdateJob(old(printJobs), id, p))
    {
      printJobs := UpdateJob(printJobs, id, p);
    }

    /** Appends one journal row (the store's `unit_events` insert). */
    method AppendEvent(e: Event)
      requires Valid()
      modifies this
      ensures Valid()
      ensures Snapshot() == old(Snapshot()).(events := old(events) + [e])
    {
      events := events + [e];
    }
  }
}

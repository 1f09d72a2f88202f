# Packaging gate and unit lifecycle handlers of the FlexaVolt MES API, in Dafny

This project models the core of the FlexaVolt manufacturing execution system's API:

- **The packaging readiness gate `canPack`.** It reads a unit, its variant and variant rules, the unit's latest test run, its latest packaging-kit scan and its print jobs. It returns `allowed`, the full ordered list of blocker codes and an `expected` record.
- **The unit action handlers**: assign-variant, flash, assemble, scan-kit, pack/finalize, move-to-stock and get-unit.
- **The print-job handlers**: create, `/next`, done and fail, together with the shared agent-token check.
- **The fixture test-result ingestion handler.**

The store is the class `Db.Database`. Its fields are the tables:

- units keyed by `sn`;
- variants and variant rules keyed by `variant_id`;
- kits keyed by `kit_id`;
- print jobs keyed by id;
- append-only sequences for `test_runs`, `unit_events` and `inventory_ledger`, where append order stands for `created_at`.

Each handler that writes is a method that `modifies` the store. It states its whole new state against `old(db.Snapshot())` and its reply for every path: schema rejection, token rejection, each store error and success. `UnitsRoutes.GetUnit` and `PrintJobsRoutes.Next` write nothing and have no `modifies` clause.

The gate is specified declaratively by `Gating.Evaluate`: the fixed check order, filtered by the set of rules the unit violates. `Gating.CanPack` is the imperative evaluator. It builds `blockers` by successive appends, as the source does, and is proved to compute `Evaluate`. The properties of the gate are lemmas about `Evaluate`, in `GatingProperties`.

Some JavaScript semantics matter here, and each is modelled as follows:

- Truthiness: `null`, `undefined` and `""` are falsy, modelled by `JsValues.Truthy`.
- A strict `=== true` test, modelled by `JsValues.IsTrue` over `JsValues.JsonFlag`.
- `??`, modelled by `Option.GetOr`.
- `toUpperCase`, modelled by `JsValues.ToUpper`.
- `trim`, modelled by `JsValues.Trim`.

The store's write errors and the database procedures whose bodies are not visible are inputs of the handlers:

- a failing write is `Some(message)`, including the writes whose error the handler ignores (the done, fail and test-pass updates);
- a body rejected by its request schema is `None`;
- the id of the signed-in operator is a plain parameter.

Facts about the handlers' writes that the model keeps exactly as the code has them:

- **Status is not monotonic.** Flash, assemble, finalize and move-to-stock overwrite `status` unconditionally (`routes/units.ts:66-72`, `96-99`, `152-155`, `182-185`). Flashing a PACKED unit makes it FLASHED again.
- **Move-to-stock does not require PACKED.** It writes `IN_FINISHED_STOCK` whatever the unit's status was.
- **Done and fail are not terminal.** They overwrite any job status (`routes/printJobs.ts:60-63`, `85-89`). A fail report turns a DONE job into FAIL. A repeated done report leaves a job DONE (`Db.UpdateJobIdempotent`).
- **The statuses written are** `FLASHED`, `ASSEMBLED`, `TEST_PASS`, `PACKED` and `IN_FINISHED_STOCK`. No handler here writes a failing-test status: a FAIL result leaves the unit's status as it was.
- **Writes are not all-or-nothing.** Move-to-stock keeps its ledger row when the status update after it fails (`routes/units.ts:171-186`). Finalize logs `allowed: true` before the PACKED write, and keeps the log row when that write fails (`routes/units.ts:142-157`).

## Model

| member | source | states |
|---|---|---|
| JsValues.ToUpper | packages/mes-api/src/services/gating.ts:52 | upper-casing never shortens a string, and keeps the length of ASCII text |
| JsValues.UpperCharPieces | packages/mes-api/src/services/gating.ts:52 | exactly p and P upper-case to "P", a and A to "A", s, S and long s to "S", and sharp s to "SS" |
| JsValues.ToUpperIsS | packages/mes-api/src/services/gating.ts:52 | exactly the one-letter strings s, S and long s upper-case to "S" |
| JsValues.ToUpperIsSS | packages/mes-api/src/services/gating.ts:52 | exactly two of s, S and long s, or a single sharp s, upper-case to "SS" |
| JsValues.ToUpperIsPass | packages/mes-api/src/services/gating.ts:52 | `toUpperCase() === "PASS"` holds exactly for P/p, A/a, then two of s/S/long s or one sharp s, and for no other string |
| JsValues.ResultSpellings | packages/mes-api/src/services/gating.ts:52 | "PASS" and "pass" compare equal to "PASS" after upper-casing and "FAIL" does not |
| JsValues.LeadingSpace | packages/mes-api/src/routes/printJobs.ts:42 | the count covers exactly the leading whitespace: all of it is whitespace and the next character is not |
| JsValues.TrailingSpace | packages/mes-api/src/routes/printJobs.ts:42 | the count covers exactly the trailing whitespace |
| JsValues.TrimBlank | packages/mes-api/src/routes/printJobs.ts:42-43 | `trim()` gives "" exactly when the string is whitespace only |
| JsValues.TrimSlice | packages/mes-api/src/routes/printJobs.ts:42 | a non-blank string trims to the slice of itself between a whitespace-only prefix and a whitespace-only suffix, and the slice neither starts nor ends with whitespace |
| Db.Latest | packages/mes-api/src/services/gating.ts:43-49 | "latest row" is absent exactly when no row matches; otherwise it is a matching row with no matching row after it |
| Db.LatestAppend | packages/mes-api/src/services/gating.ts:43-49 | a newly appended matching row becomes the latest; a non-matching one changes nothing |
| Db.LatestIgnoresEarlier | packages/mes-api/src/services/gating.ts:67-74 | rows before a later matching row never decide the latest one |
| Db.StatusOnlyPatch | packages/mes-api/src/routes/units.ts:96-99 | an update object holding only `status` changes that column and leaves every other column of the row as it was |
| Db.UpdateUnit | packages/mes-api/src/routes/units.ts:66-72 | `update().eq("sn", sn)` patches only the row keyed `sn`, adds no row, and is a no-op when there is none |
| Db.UpdateJob | packages/mes-api/src/routes/printJobs.ts:85-89 | `update().eq("print_job_id", id)` rewrites only that job's status (and error when given) and no other job |
| Db.UpdateJobIdempotent | packages/mes-api/src/routes/printJobs.ts:60-63 | a repeated done (or fail) update leaves the job as the first one left it |
| Db.Database.UpdateUnits | packages/mes-api/src/routes/units.ts:96-99 | the units table becomes `UpdateUnit` of the old one; nothing else changes |
| Db.Database.InsertTestRun | packages/mes-api/src/routes/testResults.ts:19-25 | one `test_runs` row is appended; nothing else changes |
| Db.Database.InsertLedgerEntry | packages/mes-api/src/routes/units.ts:171-179 | one `inventory_ledger` row is appended; nothing else changes |
| Db.Database.InsertPrintJob | packages/mes-api/src/routes/printJobs.ts:14-20 | the new job gets an id not in use, is stored under it, and is returned |
| Db.Database.UpdatePrintJob | packages/mes-api/src/routes/printJobs.ts:60-63 | the jobs table becomes `UpdateJob` of the old one; nothing else changes |
| Db.Database.AppendEvent | packages/mes-api/src/services/events.ts:10-16 | one journal row is appended; nothing else changes |
| Gating.Codes | packages/mes-api/src/routes/units.ts:147 | the blocker codes logged with a finalize attempt, one per blocker, in order |
| Gating.InOrderMembers | packages/mes-api/src/services/gating.ts:21-95 | a code is listed exactly when it is a checked code that is violated |
| Gating.InOrderRanked | packages/mes-api/src/services/gating.ts:21-95 | codes are listed in check order, each at most once |
| Gating.InOrderStep | packages/mes-api/src/services/gating.ts:21-95 | each check appends its code to the list of the checks before it, exactly when violated |
| Gating.PrefixStep | packages/mes-api/src/services/gating.ts:21-95 | the blocker list after check `k+1` is the list after check `k` plus that check's code when its rule is violated |
| Gating.DeviceLabelPrinted | packages/mes-api/src/services/gating.ts:92-93 | the scan over the print jobs finds one exactly when some job of the unit is a `device_label` job with status `DONE` |
| Gating.CheckAssignment | packages/mes-api/src/services/gating.ts:21-41 | pushes `UNIT_NOT_ASSIGNED` / `VARIANT_NOT_FOUND` as `Evaluate` specifies and looks up variant and rules only for a truthy `variant_id` |
| Gating.CheckLatestTest | packages/mes-api/src/services/gating.ts:43-52 | pushes `NO_TEST_RUN` / `TEST_NOT_PASS` as `Evaluate` specifies, judging the latest run only |
| Gating.CheckHardware | packages/mes-api/src/services/gating.ts:54-58 | pushes the hardware codes as `Evaluate` specifies |
| Gating.CheckFirmware | packages/mes-api/src/services/gating.ts:60-65 | pushes the firmware codes as `Evaluate` specifies and returns the resolved firmware policy |
| Gating.CheckKit | packages/mes-api/src/services/gating.ts:67-88 | pushes the kit codes as `Evaluate` specifies and returns the accepted kit, if any |
| Gating.CheckDeviceLabel | packages/mes-api/src/services/gating.ts:90-95 | pushes `DEVICE_LABEL_NOT_PRINTED` as `Evaluate` specifies, completing the blocker list |
| Gating.CanPack | packages/mes-api/src/services/gating.ts:9-100 | the evaluator's result equals the specification `Evaluate` of the store, and `allowed` holds exactly when no blocker is listed |
| GatingProperties.CheckOrderRanked | packages/mes-api/src/services/gating.ts:21-95 | the checks run in strictly increasing blocker order |
| GatingProperties.UnitNotFoundAlone | packages/mes-api/src/services/gating.ts:19 | `UNIT_NOT_FOUND` is reported exactly when the unit is missing, and then it is the only blocker, `allowed` is false and nothing is expected |
| GatingProperties.BlockersOrdered | packages/mes-api/src/services/gating.ts:99 | blockers are in check order with no code twice, and `allowed` holds exactly when the list is empty |
| GatingProperties.BlockerReported | packages/mes-api/src/services/gating.ts:21-95 | for an existing unit each code is listed exactly when its rule is violated |
| GatingProperties.AllowedMeansReady | packages/mes-api/src/services/gating.ts:99 | the gate allows packing exactly when the unit exists and no rule is violated |
| GatingProperties.RankedListUnique | packages/mes-api/src/services/gating.ts:10 | two check-ordered code lists with the same members are equal, so the blocker list is fixed by which rules fail |
| GatingProperties.NoShortCircuit | packages/mes-api/src/services/gating.ts:21-52 | an unassigned unit with no test run gets both `UNIT_NOT_ASSIGNED` and `NO_TEST_RUN` in one evaluation |
| GatingProperties.AssignmentChecks | packages/mes-api/src/services/gating.ts:21-33 | `UNIT_NOT_ASSIGNED` iff `variant_id` is missing; `VARIANT_NOT_FOUND` iff it is present with no variant row; never both |
| GatingProperties.TestChecks | packages/mes-api/src/services/gating.ts:43-52 | `NO_TEST_RUN` iff the unit has no run; `TEST_NOT_PASS` iff the latest result upper-cased is not "PASS", i.e. iff it is not a spelling of a pass; never both |
| GatingProperties.SameReadsSameViolation | packages/mes-api/src/services/gating.ts:13-95 | each rule depends only on the unit's variant and detected fields, the reference tables, the print jobs, the latest run and the latest kit scan |
| GatingProperties.SameReadsSameGate | packages/mes-api/src/services/gating.ts:13-99 | stores that agree on what the gate reads give the same gate result |
| GatingProperties.EarlierRunsIgnored | packages/mes-api/src/services/gating.ts:43-49 | test runs before a later run of the unit have no effect on the gate |
| GatingProperties.AppendedRunDecides | packages/mes-api/src/services/gating.ts:43-52 | after a new run is recorded, `NO_TEST_RUN` is gone and `TEST_NOT_PASS` follows that run's result |
| GatingProperties.LatestRunDecides | packages/mes-api/src/services/gating.ts:51-52 | the test codes follow the unit's latest run alone |
| GatingProperties.HardwareChecks | packages/mes-api/src/services/gating.ts:54-58 | hardware codes only for a non-empty allowed list, at most one of them, and none when the detected revision is listed |
| GatingProperties.FirmwareChecks | packages/mes-api/src/services/gating.ts:60-65 | `FW_VERSION_POLICY_FAIL` iff a non-empty prefix is required and the version is missing or lacks it; `FW_BUILD_HASH_MISSING` iff a hash is required (`=== true`) and missing; the policy is always reported under `expected` |
| GatingProperties.KitOutcomes | packages/mes-api/src/services/gating.ts:67-88 | the latest scan ends in exactly one of: not scanned, invalid (missing or not active), wrong variant (only for a known variant), or accepted and reported under `expected` |
| GatingProperties.DeviceLabelCheck | packages/mes-api/src/services/gating.ts:90-95 | `DEVICE_LABEL_NOT_PRINTED` iff the policy requires a label (`=== true`) and no job of the unit is a finished device label |
| GatingProperties.PrintedLabelClears | packages/mes-api/src/services/gating.ts:90-95 | a finished device-label job of the unit clears `DEVICE_LABEL_NOT_PRINTED` |
| GatingProperties.GateIgnoresStatus | packages/mes-api/src/services/gating.ts:13-17 | rewriting any unit's status leaves every gate result unchanged |
| GatingProperties.GateIgnoresOtherEvents | packages/mes-api/src/services/gating.ts:67-74 | a journal row that is not a kit scan of the unit leaves its gate result unchanged |
| GatingProperties.LogThenStatusKeepsGate | packages/mes-api/src/routes/units.ts:142-155 | logging a row that is not a kit scan of the unit, then writing only the unit's status, leaves its gate result unchanged |
| GatingProperties.ScenarioReads | packages/mes-api/src/services/gating.ts:43-93 | in the worked scenario the latest run, the scanned kit and the printed label are the expected ones |
| GatingProperties.ScenarioAssignedAndPassing | packages/mes-api/src/services/gating.ts:21-52 | in the worked scenario the assignment and test rules hold |
| GatingProperties.ScenarioHardwareAndFirmware | packages/mes-api/src/services/gating.ts:54-65 | in the worked scenario the hardware and firmware rules hold |
| GatingProperties.ScenarioKitAndLabel | packages/mes-api/src/services/gating.ts:76-95 | in the worked scenario the kit is scanned and fits, the label is printed, and `PACK_KIT_INVALID` applies exactly when `active !== true` |
| GatingProperties.ScenarioViolations | packages/mes-api/src/services/gating.ts:21-95 | in the worked scenario only the kit rule can fail, and it fails exactly when the kit is not active |
| GatingProperties.FullPassScenario | packages/mes-api/src/services/gating.ts:9-100 | a unit meeting every rule may be packed with no blockers |
| GatingProperties.InactiveKitScenario | packages/mes-api/src/services/gating.ts:85 | the same unit with its kit inactive is blocked by exactly `PACK_KIT_INVALID` |
| Http.TokenAccepted | packages/mes-api/src/routes/printJobs.ts:37-40 | the shared-token check admits any caller when no token is configured, and otherwise exactly the header equal to it |
| UnitsRoutes.AssignVariant | packages/mes-api/src/routes/units.ts:29-55 | 400 and no change on schema or procedure failure; otherwise the procedure's units table and one `UNIT_ASSIGNED_TO_VARIANT` row |
| UnitsRoutes.Flash | packages/mes-api/src/routes/units.ts:58-85 | 400 and no change on schema or write failure; otherwise only the unit's row changes, to FLASHED with all three detected fields overwritten (null when absent), then `FLASH_OK` is logged |
| UnitsRoutes.Assemble | packages/mes-api/src/routes/units.ts:88-112 | 400 and no change on failure; otherwise status ASSEMBLED, detected fields and variant kept, `ASSEMBLY_DONE` logged; no unit's gate result changes |
| UnitsRoutes.ScanKit | packages/mes-api/src/routes/units.ts:115-132 | one `PACK_KIT_SCANNED` row with the kit id and no unit change; the scanned kit becomes the unit's latest; other units' gates unchanged |
| UnitsRoutes.Finalize | packages/mes-api/src/routes/units.ts:135-160 | `PACK_FINALIZED` with the gate's verdict and codes is always logged; 409 with the gate and no unit change when blocked; PACKED only when allowed and the write succeeds, after which the gate still allows |
| UnitsRoutes.MoveToStock | packages/mes-api/src/routes/units.ts:163-197 | ledger row first (a failure changes nothing), then status (a failure keeps the ledger row, logs nothing), then `MOVE_TO_STOCK`; no gate result changes |
| UnitsRoutes.GetUnit | packages/mes-api/src/routes/units.ts:200-221 | read-only, always 200; returns the unit, its latest run and the gate result, and an allowed gate implies the unit exists and its latest result is a spelling of a pass |
| PrintJobsRoutes.CreatePrintJob | packages/mes-api/src/routes/printJobs.ts:9-33 | a missing or empty `job_type` is refused with nothing written; otherwise a QUEUED job under a fresh id with `payload` defaulting to `{}`, then `PRINT_JOB_CREATED` with the id and type |
| PrintJobsRoutes.Next | packages/mes-api/src/routes/printJobs.ts:36-50 | 401 on a bad token; 400 for a blank `agent_id`; the claim is attempted exactly when the token passes and the id is not blank, with the trimmed id; the status code is 401, then 400 (blank id or claim error), else 200 |
| PrintJobsRoutes.MarkDone | packages/mes-api/src/routes/printJobs.ts:52-75 | 401 and no change on a bad token; otherwise 200: that job alone becomes DONE unless its update fails (then no job changes), the event is logged iff the body names a unit, and a device label marked DONE clears the unit's label blocker |
| PrintJobsRoutes.MarkFailed | packages/mes-api/src/routes/printJobs.ts:77-101 | 401 and no change on a bad token; otherwise 200: that job alone becomes FAIL with the given error or "unknown" unless its update fails (then no job changes), and the event is logged iff the body names a unit |
| TestResultsRoutes.GateJudgesStoredRun | packages/mes-api/src/routes/testResults.ts:19-35 | once a result's run is the latest, the gate never reports `NO_TEST_RUN` and reports `TEST_NOT_PASS` exactly for a FAIL of an existing unit |
| TestResultsRoutes.IngestTestResult | packages/mes-api/src/routes/testResults.ts:8-46 | 401, 400 (schema) and 400 (insert) change nothing; otherwise one run with `{}` defaults, a `TEST_PASS`/`TEST_FAIL` row with station defaulting to `FIXTURE:<fixture_id>`, and on PASS, unless that update fails, status TEST_PASS with only the supplied detected fields overwritten; the reply is 200 either way and the gate then judges this run |

## Left out

- Store read failures are not modelled. Every lookup succeeds. A failed unit lookup in the gate (`unitErr`) would also give `UNIT_NOT_FOUND`, and a failed read in get-unit would give 400.
- The journal append throws when its insert fails, which answers 500 after the earlier writes have been made. That path is not modelled: appends always succeed.
- Requests are modelled as running one at a time, each handler as one atomic step over the store. In the source, `canPack` makes up to seven separate awaited reads (`services/gating.ts:13`, `27`, `35`, `43`, `67`, `79`, `92`), and finalize awaits the gate, then the log, then the PACKED update (`routes/units.ts:140-155`). Other requests may run between those steps. The model does not capture those interleavings. So `UnitsRoutes.Finalize`'s promise that the gate still allows after PACKED is written holds only when no other request intervenes.
- The `create-generic` handler is not modelled. It only relays the result of the `create_generic_unit` database procedure, whose body is not visible.
- `assign_unit_variant` and `claim_next_print_job` are opaque database procedures. The first is modelled by its outcome: an error, or the units table it leaves. The second is modelled by its outcome: an error, or the job it returns.
- The claim itself is not modelled. That covers the QUEUED to CLAIMED write, the agent recorded on the job, and the exactly-once guarantee under concurrent agents. It is concurrency inside the database.
- The print agent process (polling, sleeping, printing) is not part of this model.
- Operator authentication is not modelled: the bearer-token check against the auth service and the `/auth/me` route. Handlers behind it take the operator id as an input.
- Request-schema constraints (uuid format, string length bounds, the PASS/FAIL enum) are modelled only as "the body parses or it does not" (`None`).
- `updated_at` and `created_at` are not modelled. Append order stands for `created_at`, and clock values are left out.
- The inventory and production-order routes are not modelled. They are pass-through inserts that the gate and the handlers never read.
- JsValues.ToUpper: maps ASCII letters, long s and sharp s, and leaves every other character as it is. Other non-ASCII case mappings of `toUpperCase` are not modelled. For example, U+0390 upper-cases to three characters in JavaScript but to itself here. Outside ASCII, the length facts in its contract describe this mapping, not `toUpperCase`. The comparison with "PASS" is unaffected, because no other character's upper case is spelled with P, A and S alone.
- JsValues.UpperChar: the per-character mapping underlying `JsValues.ToUpper`, with the same restriction.
- Gating.CheckFirmware: `required_prefix` is taken to be a string. A truthy non-string value is compared by its string form in the source: `startsWith` converts 1 to "1", true to "true" and ["1."] to "1.". The model does not capture that conversion. The detected firmware version is taken to be a string too. A non-string version, which has no `startsWith` method and would make the gate throw, is not modelled.
- Gating.CheckKit: `compatible_variant_codes` is taken to be a list, so a kit row with null there (where `includes` would throw) is not modelled.
- Db.Database.InsertPrintJob: print-job ids are generated by the database. They are modelled as a counter of natural numbers, and the `:id` path parameter as such a number.
- UnitsRoutes.AssignVariant: states only what the handler itself does. What the procedure writes to the unit is whatever the `assignedUnits` input says.
- PrintJobsRoutes.MarkFailed: `String(body.error ?? "unknown")` is modelled for a string or absent `error`. Non-string JSON values and their string conversion are not modelled.
- Header values sent as arrays, and query values that are not strings, are not modelled.

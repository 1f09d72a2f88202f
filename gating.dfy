/** The packaging-readiness gate `canPack`: a read-only evaluation of every
    packaging rule for one unit against the current tables, reporting all
    violated rules in a fixed check order. */
module Gating {
  import opened JsValues
  import opened Db

  /** The blocker codes, in the order the gate checks them. */
  datatype Blocker =
    | UnitNotFound
    | UnitNotAssigned
    | VariantNotFound
    | NoTestRun
    | TestNotPass
    | HwRevUnknown
    | HwRevNotAllowed
    | FwVersionPolicyFail
    | FwBuildHashMissing
    | PackKitNotScanned
    | PackKitInvalid
    | PackKitWrongVariant
    | DeviceLabelNotPrinted
  {
    /** The code as it appears in replies and in the journal. */
    function Code(): string {
      match this
      case UnitNotFound => "UNIT_NOT_FOUND"
      case UnitNotAssigned => "UNIT_NOT_ASSIGNED"
      case VariantNotFound => "VARIANT_NOT_FOUND"
      case NoTestRun => "NO_TEST_RUN"
      case TestNotPass => "TEST_NOT_PASS"
      case HwRevUnknown => "HW_REV_UNKNOWN"
      case HwRevNotAllowed => "HW_REV_NOT_ALLOWED"
      case FwVersionPolicyFail => "FW_VERSION_POLICY_FAIL"
      case FwBuildHashMissing => "FW_BUILD_HASH_MISSING"
      case PackKitNotScanned => "PACK_KIT_NOT_SCANNED"
      case PackKitInvalid => "PACK_KIT_INVALID"
      case PackKitWrongVariant => "PACK_KIT_WRONG_VARIANT"
      case DeviceLabelNotPrinted => "DEVICE_LABEL_NOT_PRINTED"
    }

    /** Position of the check that raises this code. */
    function Rank(): nat {
      match this
      case UnitNotFound => 0
      case UnitNotAssigned => 1
      case VariantNotFound => 2
      case NoTestRun => 3
      case TestNotPass => 4
      case HwRevUnknown => 5
      case HwRevNotAllowed => 6
      case FwVersionPolicyFail => 7
      case FwBuildHashMissing => 8
      case PackKitNotScanned => 9
      case PackKitInvalid => 10
      case PackKitWrongVariant => 11
      case DeviceLabelNotPrinted => 12
    }
  }

  /** The checks made for a unit that exists, in evaluation order. */
  const CheckOrder: seq<Blocker> := [
    UnitNotAssigned, VariantNotFound, NoTestRun, TestNotPass, HwRevUnknown, HwRevNotAllowed,
    FwVersionPolicyFail, FwBuildHashMissing, PackKitNotScanned, PackKitInvalid,
    PackKitWrongVariant, DeviceLabelNotPrinted]

  /** The `expected` map: the entries the gate fills in for display. */
  datatype Expected = Expected(
    firmwarePolicy: Option<FirmwarePolicy>,
    packagingKit: Option<Kit>,
    variant: Option<Variant>)

  const NothingExpected := Expected(None, None, None)

  datatype GateResult = GateResult(allowed: bool, blockers: seq<Blocker>, expected: Expected)

  function Codes(bs: seq<Blocker>): (r: seq<string>)
    ensures |r| == |bs| && forall i :: 0 <= i < |bs| ==> r[i] == bs[i].Code()
  {
    if bs == [] then [] else [bs[0].Code()] + Codes(bs[1..])
  }

  // ---------------------------------------------------------------------------
  // What the gate reads about a unit that exists

  /** The unit's variant row, looked up only when `variant_id` is truthy. */
  function VariantOf(t: Tables, sn: string): Option<Variant>
    requires sn in t.units
  {
    var vid := t.units[sn].variantId;
    if Truthy(vid) && vid.value in t.variants then Some(t.variants[vid.value]) else None
  }

  /** The unit's variant rules, looked up only when `variant_id` is truthy. */
  function RulesOf(t: Tables, sn: string): Option<VariantRules>
    requires sn in t.units
  {
    var vid := t.units[sn].variantId;
    if Truthy(vid) && vid.value in t.rules then Some(t.rules[vid.value]) else None
  }

  /** `rules?.allowed_hw_revs ?? []` */
  function AllowedHwRevs(t: Tables, sn: string): seq<string>
    requires sn in t.units
  {
    match RulesOf(t, sn)
    case Some(r) => r.allowedHwRevs.GetOr([])
    case None => []
  }

  /** `rules?.firmware_policy ?? {}` */
  function FirmwarePolicyOf(t: Tables, sn: string): FirmwarePolicy
    requires sn in t.units
  {
    match RulesOf(t, sn)
    case Some(r) => r.firmwarePolicy.GetOr(EmptyFirmwarePolicy)
    case None => EmptyFirmwarePolicy
  }

  /** `rules?.packaging_policy?.require_device_label === true` */
  predicate RequiresDeviceLabel(t: Tables, sn: string)
    requires sn in t.units
  {
    var r := RulesOf(t, sn);
    r.Some? && r.value.packagingPolicy.Some? && IsTrue(r.value.packagingPolicy.value.requireDeviceLabel)
  }

  /** The unit's most recent test run. */
  function LatestTest(t: Tables, sn: string): Option<TestRun> {
    Latest(t.testRuns, RunOf(sn))
  }

  /** `kit_id` of the unit's most recent `PACK_KIT_SCANNED` journal row. */
  function ScannedKitId(t: Tables, sn: string): Option<string> {
    match Latest(t.events, KitScanOf(sn))
    case Some(e) => KitIdOf(e.payload)
    case None => None
  }

  /** The kit exists and its `active` column is exactly `true`. */
  predicate KitUsable(t: Tables, kitId: string) {
    kitId in t.kits && IsTrue(t.kits[kitId].active)
  }

  predicate IsDoneLabel(j: PrintJob, sn: string) {
    j.sn == Some(sn) && j.jobType == "device_label" && j.status == "DONE"
  }

  /** Some print job for the unit is a finished device label. */
  predicate LabelPrinted(jobs: map<JobId, PrintJob>, sn: string) {
    exists id :: id in jobs && IsDoneLabel(jobs[id], sn)
  }

  /** The scanned kit when it passes all three kit checks. */
  function AcceptedKit(t: Tables, sn: string): Option<Kit>
    requires sn in t.units
  {
    var kid := ScannedKitId(t, sn);
    if Truthy(kid) && KitUsable(t, kid.value) && !KitWrongVariant(t, sn)
    then Some(t.kits[kid.value])
    else None
  }

  /** `required_prefix` is set and the detected version is absent or does not start with it. */
  predicate FirmwareVersionRejected(requiredPrefix: Option<string>, fwVersion: Option<string>) {
    Truthy(requiredPrefix) && (fwVersion.None? || !(requiredPrefix.value <= fwVersion.value))
  }

  /** The scanned kit is usable but lists no code of the unit's (found) variant. */
  predicate KitWrongVariant(t: Tables, sn: string)
    requires sn in t.units
  {
    var kid := ScannedKitId(t, sn);
    Truthy(kid) && KitUsable(t, kid.value) && VariantOf(t, sn).Some?
    && VariantOf(t, sn).value.variantCode !in t.kits[kid.value].compatibleVariantCodes
  }

  // ---------------------------------------------------------------------------
  // The specification

  /** The rule behind each code, for a unit that exists. */
  predicate Violated(t: Tables, sn: string, b: Blocker)
    requires sn in t.units
  {
    var u := t.units[sn];
    match b
    case UnitNotFound => false
    case UnitNotAssigned => !Truthy(u.variantId)
    case VariantNotFound => Truthy(u.variantId) && u.variantId.value !in t.variants
    case NoTestRun => LatestTest(t, sn).None?
    case TestNotPass => LatestTest(t, sn).Some? && ToUpper(LatestTest(t, sn).value.result) != "PASS"
    case HwRevUnknown => |AllowedHwRevs(t, sn)| > 0 && !Truthy(u.hwRevDetected)
    case HwRevNotAllowed =>
      |AllowedHwRevs(t, sn)| > 0 && Truthy(u.hwRevDetected) && u.hwRevDetected.value !in AllowedHwRevs(t, sn)
    case FwVersionPolicyFail => FirmwareVersionRejected(FirmwarePolicyOf(t, sn).requiredPrefix, u.fwVersionDetected)
    case FwBuildHashMissing => IsTrue(FirmwarePolicyOf(t, sn).requireBuildHash) && !Truthy(u.fwBuildHash)
    case PackKitNotScanned => !Truthy(ScannedKitId(t, sn))
    case PackKitInvalid => Truthy(ScannedKitId(t, sn)) && !KitUsable(t, ScannedKitId(t, sn).value)
    case PackKitWrongVariant => KitWrongVariant(t, sn)
    case DeviceLabelNotPrinted => RequiresDeviceLabel(t, sn) && !LabelPrinted(t.printJobs, sn)
  }

  function ViolatedSet(t: Tables, sn: string): set<Blocker>
    requires sn in t.units
  {
    set b | b in CheckOrder && Violated(t, sn, b)
  }

  /** Strictly increasing check positions: check order, and no code twice. */
  predicate RankIncreasing(bs: seq<Blocker>) {
    forall i, j :: 0 <= i < j < |bs| ==> bs[i].Rank() < bs[j].Rank()
  }

  /** The codes of `codes` that are in `violated`, keeping their order. */
  function InOrder(codes: seq<Blocker>, violated: set<Blocker>): seq<Blocker>
    decreases |codes|
  {
    if codes == [] then []
    else
      var last := codes[|codes| - 1];
      InOrder(codes[..|codes| - 1], violated) + (if last in violated then [last] else [])
  }

  /** Filtering keeps exactly the violated codes. */
  lemma {:induction false} InOrderMembers(codes: seq<Blocker>, violated: set<Blocker>)
    ensures forall b :: b in InOrder(codes, violated) <==> b in codes && b in violated
  {
    if codes != [] {
      var n := |codes| - 1;
      InOrderMembers(codes[..n], violated);
      assert codes == codes[..n] + [codes[n]];
    }
  }

  /** Filtering keeps the check order of the codes. */
  lemma {:induction false} InOrderRanked(codes: seq<Blocker>, violated: set<Blocker>)
    requires RankIncreasing(codes)
    ensures RankIncreasing(InOrder(codes, violated))
  {
    if codes != [] {
      var n := |codes| - 1;
      var front := InOrder(codes[..n], violated);
      InOrderRanked(codes[..n], violated);
      InOrderMembers(codes[..n], violated);
      forall x | x in front ensures x.Rank() < codes[n].Rank() {
        var k :| 0 <= k < n && codes[..n][k] == x;
        assert codes[k] == x;
      }
    }
  }

  /** What `canPack(sn)` returns for the given tables. */
  function Evaluate(t: Tables, sn: string): GateResult {
    if sn !in t.units then GateResult(false, [UnitNotFound], NothingExpected)
    else
      var bs := InOrder(CheckOrder, ViolatedSet(t, sn));
      GateResult(bs == [], bs, Expected(Some(FirmwarePolicyOf(t, sn)), AcceptedKit(t, sn), VariantOf(t, sn)))
  }

  // ---------------------------------------------------------------------------
  // The evaluator

  /** `(jobs ?? []).some(j => j.job_type === "device_label" && j.status === "DONE")`
      over the unit's print jobs. */
  method DeviceLabelPrinted(db: Database, sn: string) returns (done: bool)
    ensures done <==> LabelPrinted(db.printJobs, sn)
  {
    var pending := db.printJobs.Keys;
    done := false;
    while pending != {} && !done
      invariant pending <= db.printJobs.Keys
      invariant done ==> LabelPrinted(db.printJobs, sn)
      invariant !done ==> forall id :: id in db.printJobs && id !in pending ==> !IsDoneLabel(db.printJobs[id], sn)
      decreases pending
    {
      var id :| id in pending;
      done := IsDoneLabel(db.printJobs[id], sn);
      pending := pending - {id};
    }
  }

  lemma InOrderStep(violated: set<Blocker>, k: nat)
    requires k < |CheckOrder|
    ensures InOrder(CheckOrder[..k + 1], violated)
         == InOrder(CheckOrder[..k], violated) + (if CheckOrder[k] in violated then [CheckOrder[k]] else [])
  {
    assert CheckOrder[..k + 1][..k] == CheckOrder[..k];
  }

  /** The blockers the first `k` checks report. */
  function Prefix(t: Tables, sn: string, k: nat): seq<Blocker>
    requires sn in t.units && k <= |CheckOrder|
  {
    InOrder(CheckOrder[..k], ViolatedSet(t, sn))
  }

  /** Check `k` appends its code exactly when its rule is violated. */
  lemma PrefixStep(t: Tables, sn: string, k: nat)
    requires sn in t.units && k < |CheckOrder|
    ensures Prefix(t, sn, k + 1)
         == Prefix(t, sn, k) + (if Violated(t, sn, CheckOrder[k]) then [CheckOrder[k]] else [])
  {
    InOrderStep(ViolatedSet(t, sn), k);
    assert CheckOrder[k] in CheckOrder;
  }

  /** Assignment checks and the variant and rules lookups. */
  method CheckAssignment(db: Database, sn: string)
    returns (blockers: seq<Blocker>, variant: Option<Variant>, rules: Option<VariantRules>)
    requires sn in db.units
    ensures blockers == Prefix(db.Snapshot(), sn, 2)
    ensures variant == VariantOf(db.Snapshot(), sn) && rules == RulesOf(db.Snapshot(), sn)
  {
    var unit := db.units[sn];
    blockers := [];
    if !Truthy(unit.variantId) {
      blockers := blockers + [UnitNotAssigned];
    }
    variant, rules := None, None;
    if Truthy(unit.variantId) {
      var vid := unit.variantId.value;
      variant := if vid in db.variants then Some(db.variants[vid]) else None;
      if variant.None? {
        blockers := blockers + [VariantNotFound];
      }
      rules := if vid in db.rules then Some(db.rules[vid]) else None;
    }
    PrefixStep(db.Snapshot(), sn, 0);
    PrefixStep(db.Snapshot(), sn, 1);
  }

  /** Only the unit's most recent test run is consulted. */
  method CheckLatestTest(db: Database, sn: string, before: seq<Blocker>) returns (blockers: seq<Blocker>)
    requires sn in db.units && before == Prefix(db.Snapshot(), sn, 2)
    ensures blockers == Prefix(db.Snapshot(), sn, 4)
  {
    blockers := before;
    var lastTest := Latest(db.testRuns, RunOf(sn));
    if lastTest.None? {
      blockers := blockers + [NoTestRun];
    } else if ToUpper(lastTest.value.result) != "PASS" {
      blockers := blockers + [TestNotPass];
    }
    PrefixStep(db.Snapshot(), sn, 2);
    PrefixStep(db.Snapshot(), sn, 3);
  }

  /** Hardware revision checks, made only when the allowed list is non-empty. */
  method CheckHardware(db: Database, sn: string, rules: Option<VariantRules>, before: seq<Blocker>)
    returns (blockers: seq<Blocker>)
    requires sn in db.units && rules == RulesOf(db.Snapshot(), sn)
    requires before == Prefix(db.Snapshot(), sn, 4)
    ensures blockers == Prefix(db.Snapshot(), sn, 6)
  {
    var unit := db.units[sn];
    blockers := before;
    var allowedHw := if rules.Some? then rules.value.allowedHwRevs.GetOr([]) else [];
    if |allowedHw| > 0 {
      if !Truthy(unit.hwRevDetected) {
        blockers := blockers + [HwRevUnknown];
      } else if unit.hwRevDetected.value !in allowedHw {
        blockers := blockers + [HwRevNotAllowed];
      }
    }
    PrefixStep(db.Snapshot(), sn, 4);
    PrefixStep(db.Snapshot(), sn, 5);
  }

  /** Firmware version prefix and build hash checks. */
  method CheckFirmware(db: Database, sn: string, rules: Option<VariantRules>, before: seq<Blocker>)
    returns (blockers: seq<Blocker>, fwPolicy: FirmwarePolicy)
    requires sn in db.units && rules == RulesOf(db.Snapshot(), sn)
    requires before == Prefix(db.Snapshot(), sn, 6)
    ensures blockers == Prefix(db.Snapshot(), sn, 8)
    ensures fwPolicy == FirmwarePolicyOf(db.Snapshot(), sn)
  {
    var unit := db.units[sn];
    blockers := before;
    fwPolicy := if rules.Some? then rules.value.firmwarePolicy.GetOr(EmptyFirmwarePolicy) else EmptyFirmwarePolicy;
    if Truthy(fwPolicy.requiredPrefix) {
      if unit.fwVersionDetected.None? || !(fwPolicy.requiredPrefix.value <= unit.fwVersionDetected.value) {
        blockers := blockers + [FwVersionPolicyFail];
      }
    }
    if IsTrue(fwPolicy.requireBuildHash) && !Truthy(unit.fwBuildHash) {
      blockers := blockers + [FwBuildHashMissing];
    }
    PrefixStep(db.Snapshot(), sn, 6);
    PrefixStep(db.Snapshot(), sn, 7);
  }

  /** Packaging kit checks against the most recent kit scan. */
  method CheckKit(db: Database, sn: string, variant: Option<Variant>, before: seq<Blocker>)
    returns (blockers: seq<Blocker>, packagingKit: Option<Kit>)
    requires sn in db.units && variant == VariantOf(db.Snapshot(), sn)
    requires before == Prefix(db.Snapshot(), sn, 8)
    ensures blockers == Prefix(db.Snapshot(), sn, 11)
    ensures packagingKit == AcceptedKit(db.Snapshot(), sn)
  {
    ghost var t := db.Snapshot();
    PrefixStep(t, sn, 8);
    PrefixStep(t, sn, 9);
    PrefixStep(t, sn, 10);
    blockers := before;
    var kitEvent := Latest(db.events, KitScanOf(sn));
    var kitId := if kitEvent.Some? then KitIdOf(kitEvent.value.payload) else None;
    assert kitId == ScannedKitId(t, sn);
    packagingKit := None;
    if !Truthy(kitId) {
      blockers := blockers + [PackKitNotScanned];
    } else {
      var kit := if kitId.value in db.kits then Some(db.kits[kitId.value]) else None;
      if kit.None? || !IsTrue(kit.value.active) {
        blockers := blockers + [PackKitInvalid];
      } else if variant.Some? && variant.value.variantCode !in kit.value.compatibleVariantCodes {
        blockers := blockers + [PackKitWrongVariant];
      } else {
        packagingKit := kit;
      }
    }
  }

  /** Device label check, made only when the packaging policy requires a label. */
  method CheckDeviceLabel(db: Database, sn: string, rules: Option<VariantRules>, before: seq<Blocker>)
    returns (blockers: seq<Blocker>)
    requires sn in db.units && rules == RulesOf(db.Snapshot(), sn)
    requires before == Prefix(db.Snapshot(), sn, 11)
    ensures blockers == InOrder(CheckOrder, ViolatedSet(db.Snapshot(), sn))
  {
    blockers := before;
    var requireLabel := rules.Some? && rules.value.packagingPolicy.Some?
                        && IsTrue(rules.value.packagingPolicy.value.requireDeviceLabel);
    if requireLabel {
      var labelDone := DeviceLabelPrinted(db, sn);
      if !labelDone {
        blockers := blockers + [DeviceLabelNotPrinted];
      }
    }
    PrefixStep(db.Snapshot(), sn, 11);
    assert CheckOrder[..12] == CheckOrder;
  }

  /** `canPack`: looks the unit up, then runs every check in order, each
      pushing the codes it finds violated; nothing short-circuits. */
  method CanPack(db: Database, sn: string) returns (g: GateResult)
    ensures g == Evaluate(db.Snapshot(), sn)
    ensures g.allowed <==> g.blockers == []
  {
    if sn !in db.units {
      return GateResult(false, [UnitNotFound], NothingExpected);
    }
    var blockers, variant, rules := CheckAssignment(db, sn);
    blockers := CheckLatestTest(db, sn, blockers);
    blockers := CheckHardware(db, sn, rules, blockers);
    var fwPolicy;
    blockers, fwPolicy := CheckFirmware(db, sn, rules, blockers);
    var packagingKit;
    blockers, packagingKit := CheckKit(db, sn, variant, blockers);
    blockers := CheckDeviceLabel(db, sn, rules, blockers);
    g := GateResult(|blockers| == 0, blockers, Expected(Some(fwPolicy), packagingKit, variant));
  }
}

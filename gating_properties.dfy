/** What the packaging gate promises, stated over the specification `Evaluate`
    (which `Gating.CanPack` is proved to compute). */
module GatingProperties {
  import opened JsValues
  import opened Db
  import opened Gating

  lemma CheckOrderRanked()
    ensures RankIncreasing(CheckOrder)
  {
    forall i, j | 0 <= i < j < |CheckOrder| ensures CheckOrder[i].Rank() < CheckOrder[j].Rank() {
      assert CheckOrder[i].Rank() == i + 1 && CheckOrder[j].Rank() == j + 1;
    }
  }

  /** Blockers are listed in check order with no code twice, and the unit may be
      packed exactly when the list is empty. */
  lemma BlockersOrdered(t: Tables, sn: string)
    ensures RankIncreasing(Evaluate(t, sn).blockers)
    ensures forall i, j :: 0 <= i < j < |Evaluate(t, sn).blockers|
              ==> Evaluate(t, sn).blockers[i] != Evaluate(t, sn).blockers[j]
    ensures Evaluate(t, sn).allowed <==> Evaluate(t, sn).blockers == []
  {
    if sn in t.units {
      CheckOrderRanked();
      InOrderRanked(CheckOrder, ViolatedSet(t, sn));
    }
  }

  /** For a unit that exists, each code is reported exactly when its rule is
      violated; `UNIT_NOT_FOUND` never is. */
  lemma BlockerReported(t: Tables, sn: string, b: Blocker)
    requires sn in t.units
    ensures b in Evaluate(t, sn).blockers <==> b != UnitNotFound && Violated(t, sn, b)
  {
    InOrderMembers(CheckOrder, ViolatedSet(t, sn));
    if b != UnitNotFound {
      assert b == CheckOrder[b.Rank() - 1];
    }
  }

  /** `UNIT_NOT_FOUND` is reported exactly when the unit is missing, and then it is
      the only blocker and nothing is expected. */
  lemma UnitNotFoundAlone(t: Tables, sn: string)
    ensures UnitNotFound in Evaluate(t, sn).blockers <==> sn !in t.units
    ensures sn !in t.units ==>
              !Evaluate(t, sn).allowed && Evaluate(t, sn).blockers == [UnitNotFound]
              && Evaluate(t, sn).expected == NothingExpected
  {
    if sn in t.units {
      BlockerReported(t, sn, UnitNotFound);
    }
  }

  /** The gate passes exactly when the unit exists and no rule is violated. */
  lemma AllowedMeansReady(t: Tables, sn: string)
    ensures Evaluate(t, sn).allowed <==> sn in t.units && forall b :: b in CheckOrder ==> !Violated(t, sn, b)
  {
    if sn in t.units {
      InOrderMembers(CheckOrder, ViolatedSet(t, sn));
      if !Evaluate(t, sn).allowed {
        var b := Evaluate(t, sn).blockers[0];
        assert b in CheckOrder && Violated(t, sn, b);
      }
    }
  }

  /** Two check-ordered lists holding the same codes are equal: the blocker list
      is fixed by which rules fail. */
  lemma {:induction false} RankedListUnique(a: seq<Blocker>, b: seq<Blocker>)
    requires RankIncreasing(a) && RankIncreasing(b)
    requires forall x :: x in a <==> x in b
    ensures a == b
  {
    assert a != [] ==> a[0] in a;
    assert b != [] ==> b[0] in b;
    if a != [] && b != [] {
      assert a[0] in b && b[0] in a;
      var k :| 0 <= k < |b| && b[k] == a[0];
      var m :| 0 <= m < |a| && a[m] == b[0];
      assert b[0].Rank() <= b[k].Rank();
      assert a[0].Rank() <= a[m].Rank();
      assert a[0] == b[0];
      forall x ensures x in a[1..] <==> x in b[1..] {
        if x in a[1..] {
          var k :| 1 <= k < |a| && a[k] == x;
          assert x != a[0] by { assert a[0].Rank() < a[k].Rank(); }
          assert x in b;
          var m :| 0 <= m < |b| && b[m] == x;
          assert m != 0;
          assert b[1..][m - 1] == x;
        }
        if x in b[1..] {
          var k :| 1 <= k < |b| && b[k] == x;
          assert x != b[0] by { assert b[0].Rank() < b[k].Rank(); }
          assert x in a;
          var m :| 0 <= m < |a| && a[m] == x;
          assert m != 0;
          assert a[1..][m - 1] == x;
        }
      }
      RankedListUnique(a[1..], b[1..]);
    }
  }

  /** No short-circuit: an unassigned unit with no test run gets both codes in one call. */
  lemma NoShortCircuit(t: Tables, sn: string)
    requires sn in t.units && !Truthy(t.units[sn].variantId)
    requires forall i :: 0 <= i < |t.testRuns| ==> t.testRuns[i].sn != sn
    ensures UnitNotAssigned in Evaluate(t, sn).blockers && NoTestRun in Evaluate(t, sn).blockers
    ensures !Evaluate(t, sn).allowed
  {
    BlockerReported(t, sn, UnitNotAssigned);
    BlockerReported(t, sn, NoTestRun);
  }

  /** `UNIT_NOT_ASSIGNED` iff `variant_id` is missing; `VARIANT_NOT_FOUND` iff it is
      present without a variant row; never both. */
  lemma AssignmentChecks(t: Tables, sn: string)
    requires sn in t.units
    ensures var vid := t.units[sn].variantId;
      && (UnitNotAssigned in Evaluate(t, sn).blockers <==> !Truthy(vid))
      && (VariantNotFound in Evaluate(t, sn).blockers <==> Truthy(vid) && vid.value !in t.variants)
      && !(UnitNotAssigned in Evaluate(t, sn).blockers && VariantNotFound in Evaluate(t, sn).blockers)
  {
    BlockerReported(t, sn, UnitNotAssigned);
    BlockerReported(t, sn, VariantNotFound);
  }

  /** Only the most recent run counts: `NO_TEST_RUN` iff the unit has no run,
      `TEST_NOT_PASS` iff the latest result, upper-cased, is not "PASS", that is,
      iff it is not one of the spellings of a pass. */
  lemma TestChecks(t: Tables, sn: string)
    requires sn in t.units
    ensures NoTestRun in Evaluate(t, sn).blockers <==> forall i :: 0 <= i < |t.testRuns| ==> t.testRuns[i].sn != sn
    ensures TestNotPass in Evaluate(t, sn).blockers
        <==> LatestTest(t, sn).Some? && ToUpper(LatestTest(t, sn).value.result) != "PASS"
    ensures TestNotPass in Evaluate(t, sn).blockers
        <==> LatestTest(t, sn).Some? && !PassSpelling(LatestTest(t, sn).value.result)
    ensures !(NoTestRun in Evaluate(t, sn).blockers && TestNotPass in Evaluate(t, sn).blockers)
  {
    BlockerReported(t, sn, NoTestRun);
    BlockerReported(t, sn, TestNotPass);
    if LatestTest(t, sn).Some? {
      ToUpperIsPass(LatestTest(t, sn).value.result);
    }
  }

  /** The unit fields the gate reads; it never reads `status` or `serial_class`. */
  predicate SameGateFields(u: Unit, v: Unit) {
    u.variantId == v.variantId && u.hwRevDetected == v.hwRevDetected
    && u.fwVersionDetected == v.fwVersionDetected && u.fwBuildHash == v.fwBuildHash
  }

  /** What the gate reads of a store for one unit: the unit's variant and detected
      fields, the reference tables, the print jobs, the unit's latest test run and
      its latest kit scan. */
  predicate SameGateReads(t1: Tables, t2: Tables, sn: string) {
    && (sn in t1.units <==> sn in t2.units)
    && (sn in t1.units ==> SameGateFields(t1.units[sn], t2.units[sn]))
    && t1.variants == t2.variants && t1.rules == t2.rules
    && t1.kits == t2.kits && t1.printJobs == t2.printJobs
    && LatestTest(t1, sn) == LatestTest(t2, sn) && ScannedKitId(t1, sn) == ScannedKitId(t2, sn)
  }

  /** Each rule reads only what `SameGateReads` compares. */
  lemma SameReadsSameViolation(t1: Tables, t2: Tables, sn: string, b: Blocker)
    requires sn in t1.units && SameGateReads(t1, t2, sn)
    ensures Violated(t1, sn, b) == Violated(t2, sn, b)
  {
    match b
    case UnitNotFound =>
    case UnitNotAssigned =>
    case VariantNotFound =>
    case NoTestRun =>
    case TestNotPass =>
    case HwRevUnknown =>
    case HwRevNotAllowed =>
    case FwVersionPolicyFail =>
    case FwBuildHashMissing =>
    case PackKitNotScanned =>
    case PackKitInvalid =>
    case PackKitWrongVariant =>
    case DeviceLabelNotPrinted =>
  }

  /** Stores that agree on what the gate reads evaluate alike. */
  lemma SameReadsSameGate(t1: Tables, t2: Tables, sn: string)
    requires SameGateReads(t1, t2, sn)
    ensures Evaluate(t1, sn) == Evaluate(t2, sn)
  {
    if sn in t1.units {
      forall b | b in CheckOrder ensures Violated(t1, sn, b) == Violated(t2, sn, b) {
        SameReadsSameViolation(t1, t2, sn, b);
      }
      assert ViolatedSet(t1, sn) == ViolatedSet(t2, sn);
      assert AcceptedKit(t1, sn) == AcceptedKit(t2, sn);
    }
  }

  /** Runs recorded before a later run of the unit have no effect on the gate. */
  lemma EarlierRunsIgnored(t: Tables, sn: string, earlier: seq<TestRun>, later: seq<TestRun>)
    requires exists i :: 0 <= i < |later| && later[i].sn == sn
    ensures Evaluate(t.(testRuns := earlier + later), sn) == Evaluate(t.(testRuns := later), sn)
  {
    var i :| 0 <= i < |later| && later[i].sn == sn;
    assert RunOf(sn)(later[i]);
    LatestIgnoresEarlier(earlier, later, RunOf(sn));
    SameReadsSameGate(t.(testRuns := earlier + later), t.(testRuns := later), sn);
  }

  /** A newly recorded run of an existing unit is the one the gate judges. */
  lemma AppendedRunDecides(t: Tables, run: TestRun)
    requires run.sn in t.units
    ensures var g := Evaluate(t.(testRuns := t.testRuns + [run]), run.sn);
      NoTestRun !in g.blockers && (TestNotPass in g.blockers <==> ToUpper(run.result) != "PASS")
  {
    var t' := t.(testRuns := t.testRuns + [run]);
    LatestAppend(t.testRuns, run, RunOf(run.sn));
    assert LatestTest(t', run.sn) == Some(run);
    BlockerReported(t', run.sn, NoTestRun);
    BlockerReported(t', run.sn, TestNotPass);
  }

  /** The gate's test checks follow the unit's latest run alone. */
  lemma LatestRunDecides(t: Tables, sn: string, run: TestRun)
    requires LatestTest(t, sn) == Some(run)
    ensures NoTestRun !in Evaluate(t, sn).blockers
    ensures TestNotPass in Evaluate(t, sn).blockers <==> sn in t.units && ToUpper(run.result) != "PASS"
  {
    if sn in t.units {
      BlockerReported(t, sn, NoTestRun);
      BlockerReported(t, sn, TestNotPass);
    }
  }

  /** Hardware checks apply only when the allowed list is non-empty, add at most
      one code, and add none when the detected revision is listed. */
  lemma HardwareChecks(t: Tables, sn: string)
    requires sn in t.units
    ensures var hw, rev, bs := AllowedHwRevs(t, sn), t.units[sn].hwRevDetected, Evaluate(t, sn).blockers;
      && (HwRevUnknown in bs <==> |hw| > 0 && !Truthy(rev))
      && (HwRevNotAllowed in bs <==> |hw| > 0 && Truthy(rev) && rev.value !in hw)
      && !(HwRevUnknown in bs && HwRevNotAllowed in bs)
      && (Truthy(rev) && rev.value in hw ==> HwRevUnknown !in bs && HwRevNotAllowed !in bs)
  {
    BlockerReported(t, sn, HwRevUnknown);
    BlockerReported(t, sn, HwRevNotAllowed);
  }

  /** Firmware checks, and the resolved policy is always reported for a found unit. */
  lemma FirmwareChecks(t: Tables, sn: string)
    requires sn in t.units
    ensures var p, u, g := FirmwarePolicyOf(t, sn), t.units[sn], Evaluate(t, sn);
      && (FwVersionPolicyFail in g.blockers
          <==> Truthy(p.requiredPrefix)
               && (u.fwVersionDetected.None? || !(p.requiredPrefix.value <= u.fwVersionDetected.value)))
      && (FwBuildHashMissing in g.blockers <==> IsTrue(p.requireBuildHash) && !Truthy(u.fwBuildHash))
      && g.expected.firmwarePolicy == Some(p)
  {
    BlockerReported(t, sn, FwVersionPolicyFail);
    BlockerReported(t, sn, FwBuildHashMissing);
  }

  predicate ExactlyOne(a: bool, b: bool, c: bool, d: bool) {
    (a || b || c || d) && !(a && b) && !(a && c) && !(a && d) && !(b && c) && !(b && d) && !(c && d)
  }

  /** The kit of the latest scan ends in exactly one outcome: not scanned, invalid
      (missing or not active), wrong variant (only for a known variant), or
      accepted and reported under `expected.packaging_kit`. */
  lemma KitOutcomes(t: Tables, sn: string)
    requires sn in t.units
    ensures var g, kid := Evaluate(t, sn), ScannedKitId(t, sn);
      && ExactlyOne(PackKitNotScanned in g.blockers, PackKitInvalid in g.blockers,
                    PackKitWrongVariant in g.blockers, g.expected.packagingKit.Some?)
      && (PackKitNotScanned in g.blockers <==> !Truthy(kid))
      && (PackKitInvalid in g.blockers <==> Truthy(kid) && (kid.value !in t.kits || !IsTrue(t.kits[kid.value].active)))
      && (PackKitWrongVariant in g.blockers ==> VariantOf(t, sn).Some?)
      && (g.expected.packagingKit.Some? ==>
            Truthy(kid) && kid.value in t.kits && g.expected.packagingKit.value == t.kits[kid.value]
            && IsTrue(t.kits[kid.value].active))
  {
    BlockerReported(t, sn, PackKitNotScanned);
    BlockerReported(t, sn, PackKitInvalid);
    BlockerReported(t, sn, PackKitWrongVariant);
  }

  /** `DEVICE_LABEL_NOT_PRINTED` iff the policy requires a label and no print job of
      the unit is a finished device label. */
  lemma DeviceLabelCheck(t: Tables, sn: string)
    requires sn in t.units
    ensures DeviceLabelNotPrinted in Evaluate(t, sn).blockers
        <==> RequiresDeviceLabel(t, sn)
             && forall id :: id in t.printJobs && t.printJobs[id].sn == Some(sn)
                  ==> t.printJobs[id].jobType != "device_label" || t.printJobs[id].status != "DONE"
  {
    BlockerReported(t, sn, DeviceLabelNotPrinted);
  }

  /** A finished device-label job of a unit clears its `DEVICE_LABEL_NOT_PRINTED`. */
  lemma PrintedLabelClears(t: Tables, id: JobId, sn: string)
    requires id in t.printJobs && IsDoneLabel(t.printJobs[id], sn)
    ensures LabelPrinted(t.printJobs, sn)
    ensures DeviceLabelNotPrinted !in Evaluate(t, sn).blockers
  {
    if sn in t.units {
      BlockerReported(t, sn, DeviceLabelNotPrinted);
    }
  }

  /** Rewriting a unit's status, as assemble, finalize and move-to-stock do,
      leaves every gate result unchanged. */
  lemma GateIgnoresStatus(t: Tables, k: string, status: string, sn: string)
    requires k in t.units
    ensures Evaluate(t.(units := t.units[k := t.units[k].(status := status)]), sn) == Evaluate(t, sn)
  {
    var t' := t.(units := t.units[k := t.units[k].(status := status)]);
    assert LatestTest(t', sn) == LatestTest(t, sn);
    assert ScannedKitId(t', sn) == ScannedKitId(t, sn);
    SameReadsSameGate(t', t, sn);
  }

  /** Journal rows other than a kit scan of this unit leave its gate result unchanged. */
  lemma GateIgnoresOtherEvents(t: Tables, sn: string, e: Event)
    requires !(e.sn == Some(sn) && e.eventType == "PACK_KIT_SCANNED")
    ensures Evaluate(t.(events := t.events + [e]), sn) == Evaluate(t, sn)
  {
    var t' := t.(events := t.events + [e]);
    LatestAppend(t.events, e, KitScanOf(sn));
    assert ScannedKitId(t', sn) == ScannedKitId(t, sn);
    SameReadsSameGate(t', t, sn);
  }

  /** Logging a row that is not a kit scan of the unit and then writing only its
      status, as finalize does, leaves the unit's gate result unchanged. */
  lemma LogThenStatusKeepsGate(t: Tables, sn: string, e: Event, status: string)
    requires sn in t.units
    requires !(e.sn == Some(sn) && e.eventType == "PACK_KIT_SCANNED")
    ensures Evaluate(t.(events := t.events + [e], units := UpdateUnit(t.units, sn, StatusOnly(status))), sn)
            == Evaluate(t, sn)
  {
    var t1 := t.(events := t.events + [e]);
    GateIgnoresOtherEvents(t, sn, e);
    StatusOnlyPatch(t.units[sn], status);
    assert UpdateUnit(t.units, sn, StatusOnly(status)) == t1.units[sn := t1.units[sn].(status := status)];
    GateIgnoresStatus(t1, sn, status, sn);
  }

  // ---------------------------------------------------------------------------
  // Worked scenario: a unit ready to pack, and the same unit with an inactive kit

  const ScenarioSn := "2401-GN-00001"

  /** Variant V1 allows hardware "B", requires firmware prefix "1." but no build
      hash, and requires a device label; the unit passed its only test, its kit
      was scanned and its device label printed. */
  function Scenario(kitActive: JsonFlag): Tables {
    Tables(
      map[ScenarioSn := Unit(ScenarioSn, "TEST_PASS", Some("V1"), None, Some("B"), Some("1.2.0"), None)],
      map["V1" := Variant("V1", "BS", "EN", "FG-BS")],
      map["V1" := VariantRules("V1", Some(["B"]), Some(FirmwarePolicy(Some("1."), Unset)),
                               Some(PackagingPolicy(JsonBool(true))), map[])],
      map["KIT-BS" := Kit("KIT-BS", ["BS"], "EN", kitActive, map[])],
      [TestRun(ScenarioSn, "FX-01", "PASS", map[], map[])],
      [Event(Some(ScenarioSn), "PACK_KIT_SCANNED", None, Some("operator"), KitScannedPayload("KIT-BS"))],
      [],
      map[0 := PrintJob(0, "device_label", Some(ScenarioSn), map[], "DONE", None)],
      1)
  }

  lemma ScenarioReads(kitActive: JsonFlag)
    ensures var t := Scenario(kitActive);
      && LatestTest(t, ScenarioSn) == Some(t.testRuns[0])
      && ScannedKitId(t, ScenarioSn) == Some("KIT-BS")
      && LabelPrinted(t.printJobs, ScenarioSn)
  {
    var t := Scenario(kitActive);
    LatestAppend([], t.testRuns[0], RunOf(ScenarioSn));
    assert [] + [t.testRuns[0]] == t.testRuns;
    LatestAppend([], t.events[0], KitScanOf(ScenarioSn));
    assert [] + [t.events[0]] == t.events;
    assert KitIdOf(t.events[0].payload) == Some("KIT-BS");
    assert IsDoneLabel(t.printJobs[0], ScenarioSn);
  }

  /** The scenario unit is assigned to a known variant and its latest run passed. */
  lemma ScenarioAssignedAndPassing(kitActive: JsonFlag)
    ensures var t := Scenario(kitActive);
      && !Violated(t, ScenarioSn, UnitNotAssigned) && !Violated(t, ScenarioSn, VariantNotFound)
      && !Violated(t, ScenarioSn, NoTestRun) && !Violated(t, ScenarioSn, TestNotPass)
  {
    ScenarioReads(kitActive);
    ResultSpellings();
  }

  /** The scenario unit's hardware revision is allowed and its firmware meets the policy. */
  lemma ScenarioHardwareAndFirmware(kitActive: JsonFlag)
    ensures var t := Scenario(kitActive);
      && !Violated(t, ScenarioSn, HwRevUnknown) && !Violated(t, ScenarioSn, HwRevNotAllowed)
      && !Violated(t, ScenarioSn, FwVersionPolicyFail) && !Violated(t, ScenarioSn, FwBuildHashMissing)
  {
    assert "1." <= "1.2.0";
  }

  /** The scenario unit's kit was scanned and fits its variant, and its device
      label was printed; the kit is usable exactly when it is active. */
  lemma ScenarioKitAndLabel(kitActive: JsonFlag)
    ensures var t := Scenario(kitActive);
      && !Violated(t, ScenarioSn, PackKitNotScanned) && !Violated(t, ScenarioSn, PackKitWrongVariant)
      && !Violated(t, ScenarioSn, DeviceLabelNotPrinted)
      && (Violated(t, ScenarioSn, PackKitInvalid) <==> !IsTrue(kitActive))
  {
    ScenarioReads(kitActive);
  }

  /** In the scenario every rule but the kit's holds, and the kit rule fails
      exactly when the kit is not active (`active !== true`). */
  lemma ScenarioViolations(kitActive: JsonFlag)
    ensures forall b :: b != PackKitInvalid ==> !Violated(Scenario(kitActive), ScenarioSn, b)
    ensures Violated(Scenario(kitActive), ScenarioSn, PackKitInvalid) <==> !IsTrue(kitActive)
  {
    ScenarioAssignedAndPassing(kitActive);
    ScenarioHardwareAndFirmware(kitActive);
    ScenarioKitAndLabel(kitActive);
    forall b | b != PackKitInvalid ensures !Violated(Scenario(kitActive), ScenarioSn, b) {
      match b
      case UnitNotFound =>
      case _ =>
    }
  }

  /** Every rule holds, so the unit may be packed with no blockers. */
  lemma FullPassScenario()
    ensures Evaluate(Scenario(JsonBool(true)), ScenarioSn).allowed
    ensures Evaluate(Scenario(JsonBool(true)), ScenarioSn).blockers == []
  {
    var t := Scenario(JsonBool(true));
    ScenarioViolations(JsonBool(true));
    AllowedMeansReady(t, ScenarioSn);
    BlockersOrdered(t, ScenarioSn);
  }

  /** With the scanned kit inactive, that is the only blocker. */
  lemma InactiveKitScenario()
    ensures Evaluate(Scenario(JsonBool(false)), ScenarioSn).blockers == [PackKitInvalid]
  {
    var t := Scenario(JsonBool(false));
    ScenarioViolations(JsonBool(false));
    var bs := Evaluate(t, ScenarioSn).blockers;
    forall b ensures b in bs <==> b == PackKitInvalid {
      BlockerReported(t, ScenarioSn, b);
    }
    BlockersOrdered(t, ScenarioSn);
    RankedListUnique(bs, [PackKitInvalid]);
  }
}

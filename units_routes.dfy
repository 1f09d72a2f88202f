/** The unit action handlers: each one writes the store and then appends one
    journal row. `operator` is the id of the signed-in user the request carries.
    A store write that fails is an input (`Some(message)`), and a body that fails
    its schema is `None`. */
module UnitsRoutes {
  import opened JsValues
  import opened Db
  import opened Gating
  import opened Http
  import GatingProperties

  /** Assigns a variant. The database procedure that performs the assignment is
      opaque: `procedureError` is its failure, and `assignedUnits` the units table
      as it leaves it when it succeeds. The event is logged only after success. */
  method AssignVariant(db: Database, sn: string, body: Option<AssignVariantRequest>, operator: string,
                       procedureError: Option<string>, assignedUnits: map<string, Unit>)
    returns (reply: Reply)
    requires db.Valid()
    requires forall k :: k in assignedUnits ==> assignedUnits[k].sn == k
    modifies db
    ensures db.Valid()
    ensures body.None? ==> reply == SchemaRejected && db.Snapshot() == old(db.Snapshot())
    ensures body.Some? && procedureError.Some? ==>
              reply == BadRequest(procedureError.value) && db.Snapshot() == old(db.Snapshot())
    ensures body.Some? && procedureError.None? ==>
              var b := body.value;
              && reply == Ok
              && db.Snapshot() == old(db.Snapshot()).(
                   units := assignedUnits,
                   events := old(db.events) + [Event(Some(sn), "UNIT_ASSIGNED_TO_VARIANT", b.stationId, Some(operator),
                                                     AssignedPayload(b.variantId, b.assignedProductCode))])
  {
    if body.None? {
      return SchemaRejected;
    }
    var b := body.value;
    if procedureError.Some? {
      return BadRequest(procedureError.value);
    }
    db.units := assignedUnits;
    db.AppendEvent(Event(Some(sn), "UNIT_ASSIGNED_TO_VARIANT", b.stationId, Some(operator),
                         AssignedPayload(b.variantId, b.assignedProductCode)));
    reply := Ok;
  }

  /** The update a flash result writes: every detected field is overwritten, with
      null where the body leaves it out. */
  function FlashPatch(b: FlashRequest): UnitPatch {
    UnitPatch("FLASHED", Some(b.hwRevDetected), Some(b.fwVersionDetected), Some(b.fwBuildHash))
  }

  /** Records a flash/provision result. */
  method Flash(db: Database, sn: string, body: Option<FlashRequest>, operator: string, writeError: Option<string>)
    returns (reply: Reply)
    requires db.Valid()
    modifies db
    ensures db.Valid()
    ensures body.None? ==> reply == SchemaRejected && db.Snapshot() == old(db.Snapshot())
    ensures body.Some? && writeError.Some? ==>
              reply == BadRequest(writeError.value) && db.Snapshot() == old(db.Snapshot())
    ensures body.Some? && writeError.None? ==>
              var b := body.value;
              && reply == Ok
              && db.Snapshot() == old(db.Snapshot()).(
                   units := UpdateUnit(old(db.units), sn, FlashPatch(b)),
                   events := old(db.events) + [Event(Some(sn), "FLASH_OK", b.stationId, Some(operator), FlashPayload(b))])
              && (forall k :: k in old(db.units) && k != sn ==> db.units[k] == old(db.units[k]))
              && (sn in old(db.units) ==>
                    db.units[sn] == old(db.units[sn]).(status := "FLASHED", hwRevDetected := b.hwRevDetected,
                                                       fwVersionDetected := b.fwVersionDetected,
                                                       fwBuildHash := b.fwBuildHash))
  {
    if body.None? {
      return SchemaRejected;
    }
    var b := body.value;
    if writeError.Some? {
      return BadRequest(writeError.value);
    }
    db.UpdateUnits(sn, FlashPatch(b));
    db.AppendEvent(Event(Some(sn), "FLASH_OK", b.stationId, Some(operator), FlashPayload(b)));
    reply := Ok;
  }

  /** Records that assembly is done. Only the status changes, so no unit's gate
      result changes. */
  method Assemble(db: Database, sn: string, body: Option<AssembleRequest>, operator: string, writeError: Option<string>)
    returns (reply: Reply)
    requires db.Valid()
    modifies db
    ensures db.Valid()
    ensures body.None? ==> reply == SchemaRejected && db.Snapshot() == old(db.Snapshot())
    ensures body.Some? && writeError.Some? ==>
              reply == BadRequest(writeError.value) && db.Snapshot() == old(db.Snapshot())
    ensures body.Some? && writeError.None? ==>
              var b := body.value;
              && reply == Ok
              && db.Snapshot() == old(db.Snapshot()).(
                   units := UpdateUnit(old(db.units), sn, StatusOnly("ASSEMBLED")),
                   events := old(db.events) + [Event(Some(sn), "ASSEMBLY_DONE", b.stationId, Some(operator), AssemblyPayload(b))])
              && (sn in old(db.units) ==> db.units[sn] == old(db.units[sn]).(status := "ASSEMBLED"))
    ensures forall s :: Evaluate(db.Snapshot(), s) == Evaluate(old(db.Snapshot()), s)
  {
    if body.None? {
      return SchemaRejected;
    }
    var b := body.value;
    if writeError.Some? {
      return BadRequest(writeError.value);
    }
    ghost var t0 := db.Snapshot();
    db.UpdateUnits(sn, StatusOnly("ASSEMBLED"));
    ghost var t1 := db.Snapshot();
    var e := Event(Some(sn), "ASSEMBLY_DONE", b.stationId, Some(operator), AssemblyPayload(b));
    db.AppendEvent(e);
    forall s ensures Evaluate(db.Snapshot(), s) == Evaluate(t0, s) {
      GatingProperties.GateIgnoresOtherEvents(t1, s, e);
      if sn in t0.units {
        GatingProperties.GateIgnoresStatus(t0, sn, "ASSEMBLED", s);
      }
    }
    reply := Ok;
  }

  /** Records a packaging-kit scan. No unit row changes; the scanned kit becomes
      the one the gate checks for this unit, and no other unit's gate changes. */
  method ScanKit(db: Database, sn: string, body: Option<ScanKitRequest>, operator: string)
    returns (reply: Reply)
    requires db.Valid()
    modifies db
    ensures db.Valid()
    ensures body.None? ==> reply == SchemaRejected && db.Snapshot() == old(db.Snapshot())
    ensures body.Some? ==>
              var b := body.value;
              && reply == Ok
              && db.Snapshot() == old(db.Snapshot()).(
                   events := old(db.events) + [Event(Some(sn), "PACK_KIT_SCANNED", b.stationId, Some(operator),
                                                     KitScannedPayload(b.kitId))])
              && ScannedKitId(db.Snapshot(), sn) == Some(b.kitId)
    ensures forall s :: s != sn ==> Evaluate(db.Snapshot(), s) == Evaluate(old(db.Snapshot()), s)
  {
    if body.None? {
      return SchemaRejected;
    }
    var b := body.value;
    ghost var t0 := db.Snapshot();
    var e := Event(Some(sn), "PACK_KIT_SCANNED", b.stationId, Some(operator), KitScannedPayload(b.kitId));
    db.AppendEvent(e);
    LatestAppend(t0.events, e, KitScanOf(sn));
    forall s | s != sn ensures Evaluate(db.Snapshot(), s) == Evaluate(t0, s) {
      GatingProperties.GateIgnoresOtherEvents(t0, s, e);
    }
    reply := Ok;
  }

  /** The journal row every finalize attempt writes. */
  function FinalizedEvent(sn: string, stationId: Option<string>, operator: string, g: GateResult): Event {
    Event(Some(sn), "PACK_FINALIZED", stationId, Some(operator), FinalizedPayload(g.allowed, Codes(g.blockers)))
  }

  /** The pack gate: evaluates `canPack`, always logs the attempt with its outcome,
      and marks the unit PACKED only when the gate allows it. Packing does not
      change the unit's gate result. */
  method Finalize(db: Database, sn: string, stationId: Option<string>, operator: string, writeError: Option<string>)
    returns (reply: Reply)
    requires db.Valid()
    modifies db
    ensures db.Valid()
    ensures var g := Evaluate(old(db.Snapshot()), sn);
            var logged := old(db.events) + [FinalizedEvent(sn, stationId, operator, g)];
            && (!g.allowed ==>
                  reply == GateBlocked(g) && db.Snapshot() == old(db.Snapshot()).(events := logged))
            && (g.allowed && writeError.Some? ==>
                  reply == BadRequest(writeError.value) && db.Snapshot() == old(db.Snapshot()).(events := logged))
            && (g.allowed && writeError.None? ==>
                  && reply == Packed(g)
                  && db.Snapshot() == old(db.Snapshot()).(
                       units := UpdateUnit(old(db.units), sn, StatusOnly("PACKED")), events := logged)
                  && db.units[sn].status == "PACKED"
                  && Evaluate(db.Snapshot(), sn) == g)
    ensures db.units != old(db.units) ==> Evaluate(old(db.Snapshot()), sn).allowed
  {
    ghost var t0 := db.Snapshot();
    var g := CanPack(db, sn);
    var e := FinalizedEvent(sn, stationId, operator, g);
    db.AppendEvent(e);
    if !g.allowed {
      return GateBlocked(g);
    }
    if writeError.Some? {
      return BadRequest(writeError.value);
    }
    db.UpdateUnits(sn, StatusOnly("PACKED"));
    GatingProperties.LogThenStatusKeepsGate(t0, sn, e, "PACKED");
    reply := Packed(g);
  }

  /** The ledger row a move to finished stock writes. */
  function ProducedEntry(sn: string, b: MoveToStockRequest, operator: string): LedgerEntry {
    LedgerEntry(b.finishedItemId, b.locationId, "PRODUCE_FINISHED", 1, "UNIT", sn, operator)
  }

  /** Moves a unit to finished-goods stock: a ledger row first, then the status,
      then the journal row; each failure stops the sequence where it is. The
      gate does not read the ledger or the status, so no gate result changes. */
  method MoveToStock(db: Database, sn: string, body: Option<MoveToStockRequest>, operator: string,
                     ledgerError: Option<string>, unitError: Option<string>)
    returns (reply: Reply)
    requires db.Valid()
    modifies db
    ensures db.Valid()
    ensures body.None? ==> reply == SchemaRejected && db.Snapshot() == old(db.Snapshot())
    ensures body.Some? && ledgerError.Some? ==>
              reply == BadRequest(ledgerError.value) && db.Snapshot() == old(db.Snapshot())
    ensures body.Some? && ledgerError.None? && unitError.Some? ==>
              && reply == BadRequest(unitError.value)
              && db.Snapshot() == old(db.Snapshot()).(ledger := old(db.ledger) + [ProducedEntry(sn, body.value, operator)])
    ensures body.Some? && ledgerError.None? && unitError.None? ==>
              var b := body.value;
              && reply == Ok
              && db.Snapshot() == old(db.Snapshot()).(
                   units := UpdateUnit(old(db.units), sn, StatusOnly("IN_FINISHED_STOCK")),
                   ledger := old(db.ledger) + [ProducedEntry(sn, b, operator)],
                   events := old(db.events) + [Event(Some(sn), "MOVE_TO_STOCK", b.stationId, Some(operator),
                                                     MovedPayload(b.finishedItemId, b.locationId))])
    ensures forall s :: Evaluate(db.Snapshot(), s) == Evaluate(old(db.Snapshot()), s)
  {
    if body.None? {
      return SchemaRejected;
    }
    var b := body.value;
    if ledgerError.Some? {
      return BadRequest(ledgerError.value);
    }
    ghost var t0 := db.Snapshot();
    db.InsertLedgerEntry(ProducedEntry(sn, b, operator));
    ghost var t1 := db.Snapshot();
    forall s ensures Evaluate(t1, s) == Evaluate(t0, s) {
      GatingProperties.SameReadsSameGate(t1, t0, s);
    }
    if unitError.Some? {
      return BadRequest(unitError.value);
    }
    db.UpdateUnits(sn, StatusOnly("IN_FINISHED_STOCK"));
    ghost var t2 := db.Snapshot();
    var e := Event(Some(sn), "MOVE_TO_STOCK", b.stationId, Some(operator), MovedPayload(b.finishedItemId, b.locationId));
    db.AppendEvent(e);
    forall s ensures Evaluate(db.Snapshot(), s) == Evaluate(t0, s) {
      GatingProperties.GateIgnoresOtherEvents(t2, s, e);
      if sn in t1.units {
        GatingProperties.GateIgnoresStatus(t1, sn, "IN_FINISHED_STOCK", s);
      }
    }
    reply := Ok;
  }

  /** Unit details: the unit row (if any), its latest test run and its gate
      result. Nothing is written. A unit the gate allows exists and its latest
      run's result is spelled as a pass ("PASS", "pass", ...). */
  method GetUnit(db: Database, sn: string) returns (reply: Reply)
    ensures reply == UnitDetails(if sn in db.units then Some(db.units[sn]) else None,
                                 LatestTest(db.Snapshot(), sn), Evaluate(db.Snapshot(), sn))
    ensures reply.StatusCode() == 200
    ensures reply.gate.allowed ==>
              reply.unit.Some? && reply.lastTest.Some? && PassSpelling(reply.lastTest.value.result)
  {
    var unit := if sn in db.units then Some(db.units[sn]) else None;
    var lastTest := Latest(db.testRuns, RunOf(sn));
    var gate := CanPack(db, sn);
    if gate.allowed {
      GatingProperties.AllowedMeansReady(db.Snapshot(), sn);
      assert !Violated(db.Snapshot(), sn, NoTestRun) && !Violated(db.Snapshot(), sn, TestNotPass);
      ToUpperIsPass(lastTest.value.result);
    }
    reply := UnitDetails(unit, lastTest, gate);
  }
}

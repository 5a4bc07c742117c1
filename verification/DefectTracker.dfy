/**
 The defect tables as the operations update them, one transaction after the other. Every
 method is tied to its plan, so what the other modules prove about plans and runs holds of it.
 */
module DefectTracker {
  import opened Prelude
  import opened Defects
  import opened DefectInvariants

  class Tracker {
    var observations: map<Id, Observation>
    var diagnoses: map<Id, Diagnosis>
    var defects: map<Id, Defect>
    var order: seq<Id>
    var obligations: map<Id, Obligation>
    var keys: seq<Id>
    /** Every transaction committed so far, in order. */
    ghost var journal: seq<Write>

    constructor ()
      ensures Tables() == EMPTY && journal == []
    {
      observations, diagnoses, defects, order, obligations, keys := map[], map[], map[], [], map[], [];
      journal := [];
    }

    function Tables(): (db: Db)
      reads this
    {
      Db(observations, diagnoses, defects, order, obligations, keys)
    }

    // ---------------------------------------------------------------- transactions

    method RecordObservation(id: Id, observation: Observation)
      modifies this
      ensures Tables() == Apply(old(Tables()), ObservationRecorded(id, observation))
      ensures journal == old(journal) + [ObservationRecorded(id, observation)]
    {
      observations := observations[id := observation];
      journal := journal + [ObservationRecorded(id, observation)];
    }

    method RecordDiagnosis(id: Id, row: Diagnosis)
      modifies this
      ensures Tables() == Apply(old(Tables()), DiagnosisRecorded(id, row))
      ensures journal == old(journal) + [DiagnosisRecorded(id, row)]
    {
      diagnoses := diagnoses[id := row];
      journal := journal + [DiagnosisRecorded(id, row)];
    }

    method OpenDefect(id: Id, defect: Defect)
      modifies this
      ensures Tables() == Apply(old(Tables()), DefectOpened(id, defect))
      ensures journal == old(journal) + [DefectOpened(id, defect)]
    {
      defects := defects[id := defect];
      order := order + [id];
      journal := journal + [DefectOpened(id, defect)];
    }

    method MergeObservation(id: Id, source: Id)
      modifies this
      ensures Tables() == Apply(old(Tables()), ObservationMerged(id, source))
      ensures journal == old(journal) + [ObservationMerged(id, source)]
    {
      if id in defects && source in observations {
        var d := defects[id];
        defects := defects[id := d.(observations := WithObservation(d.observations, source),
                                    layers := WithLayer(d.layers, observations[source].layer))];
      }
      journal := journal + [ObservationMerged(id, source)];
    }

    method StoreDecision(id: Id, decision: Decision, reviewer: Id)
      modifies this
      ensures Tables() == Apply(old(Tables()), DefectDecided(id, decision, reviewer))
      ensures journal == old(journal) + [DefectDecided(id, decision, reviewer)]
    {
      if id in defects {
        defects := defects[id := defects[id].(status := Decided(decision), confirmer := Some(reviewer))];
      }
      journal := journal + [DefectDecided(id, decision, reviewer)];
    }

    method StoreFix(id: Id, deployment: Option<Id>)
      modifies this
      ensures Tables() == Apply(old(Tables()), FixRegistered(id, deployment))
      ensures journal == old(journal) + [FixRegistered(id, deployment)]
    {
      if id in defects {
        defects := defects[id := defects[id].(
          status := if Given(deployment) then ReadyForRetest else WaitingDeployment, deployment := deployment)];
      }
      journal := journal + [FixRegistered(id, deployment)];
    }

    /** Does nothing when the key is taken. */
    method InsertObligation(key: Id, obligation: Obligation)
      modifies this
      ensures Tables() == Apply(old(Tables()), ObligationInserted(key, obligation))
      ensures journal == old(journal) + [ObligationInserted(key, obligation)]
    {
      if key !in obligations {
        obligations := obligations[key := obligation];
        keys := keys + [key];
      }
      journal := journal + [ObligationInserted(key, obligation)];
    }

    method MarkDispatched(key: Id)
      modifies this
      ensures Tables() == Apply(old(Tables()), ObligationDispatched(key))
      ensures journal == old(journal) + [ObligationDispatched(key)]
    {
      if key in obligations {
        obligations := obligations[key := obligations[key].(status := Dispatched)];
      }
      journal := journal + [ObligationDispatched(key)];
    }

    method MarkRetesting(id: Id)
      modifies this
      ensures Tables() == Apply(old(Tables()), RetestStarted(id))
      ensures journal == old(journal) + [RetestStarted(id)]
    {
      if id in defects {
        defects := defects[id := defects[id].(status := Retesting)];
      }
      journal := journal + [RetestStarted(id)];
    }

    method StoreResult(key: Id, result: ObligationStatus)
      modifies this
      ensures Tables() == Apply(old(Tables()), ResultRecorded(key, result))
      ensures journal == old(journal) + [ResultRecorded(key, result)]
    {
      if key in obligations {
        obligations := obligations[key := obligations[key].(status := result)];
      }
      journal := journal + [ResultRecorded(key, result)];
    }

    method StoreConclusion(id: Id, verified: bool)
      modifies this
      ensures Tables() == Apply(old(Tables()), ConclusionDrawn(id, verified))
      ensures journal == old(journal) + [ConclusionDrawn(id, verified)]
    {
      if id in defects {
        defects := defects[id := defects[id].(status := if verified then Verified else Reopened)];
      }
      journal := journal + [ConclusionDrawn(id, verified)];
    }

    method MarkClosed(id: Id)
      modifies this
      ensures Tables() == Apply(old(Tables()), DefectClosed(id))
      ensures journal == old(journal) + [DefectClosed(id)]
    {
      if id in defects {
        defects := defects[id := defects[id].(status := Closed)];
      }
      journal := journal + [DefectClosed(id)];
    }

    // ------------------------------------------------------------------ operations

    method Observe(id: Id, observation: Observation) returns (outcome: Outcome)
      modifies this
      ensures Tables() == Replay(old(Tables()), PlanOf(old(Tables()), OpObserve(id, observation)).writes)
      ensures journal == old(journal) + PlanOf(old(Tables()), OpObserve(id, observation)).writes
      ensures outcome == PlanOf(old(Tables()), OpObserve(id, observation)).outcome
    {
      if id in observations {
        return Raised(UniqueViolation);
      }
      ReplayOne(Tables(), ObservationRecorded(id, observation));
      RecordObservation(id, observation);
      outcome := Done;
    }

    method Diagnose(id: Id, row: Diagnosis) returns (outcome: Outcome)
      modifies this
      ensures Tables() == Replay(old(Tables()), PlanOf(old(Tables()), OpDiagnose(id, row)).writes)
      ensures journal == old(journal) + PlanOf(old(Tables()), OpDiagnose(id, row)).writes
      ensures outcome == PlanOf(old(Tables()), OpDiagnose(id, row)).outcome
    {
      if row.observation !in observations {
        return Raised(NotFound);
      }
      if id in diagnoses {
        return Raised(UniqueViolation);
      }
      ReplayOne(Tables(), DiagnosisRecorded(id, row));
      RecordDiagnosis(id, row);
      outcome := Done;
    }

    method Correlate(diagnosis: Id, newId: Id, severity: Id, actor: Id, pick: Id) returns (outcome: Outcome)
      modifies this
      ensures Tables() == Replay(old(Tables()),
          Defects.Correlate(old(Tables()), diagnosis, newId, severity, actor, pick).writes)
      ensures journal == old(journal) + Defects.Correlate(old(Tables()), diagnosis, newId, severity, actor, pick).writes
      ensures outcome == Defects.Correlate(old(Tables()), diagnosis, newId, severity, actor, pick).outcome
    {
      if diagnosis !in diagnoses || diagnoses[diagnosis].observation !in observations {
        return Raised(NotFound);
      }
      var row := diagnoses[diagnosis];
      if !row.product {
        return NotAProductDefect;
      }
      var o := observations[row.observation];
      var existing := Existing(Tables(), o.Signature(), pick);
      if existing.Some? {
        ReplayOne(Tables(), ObservationMerged(existing.value, row.observation));
        MergeObservation(existing.value, row.observation);
        return Done;
      }
      if newId in defects {
        return Raised(UniqueViolation);
      }
      var mode := ConfirmationMode(row.confidence, severity, o.dimension);
      ReplayOne(Tables(), DefectOpened(newId, NewDefect(mode, row.observation, o, actor)));
      OpenDefect(newId, NewDefect(mode, row.observation, o, actor));
      outcome := Done;
    }

    method Confirm(id: Id, reviewer: Id, decision: Option<Decision>) returns (outcome: Outcome)
      modifies this
      ensures Tables() == Replay(old(Tables()), ConfirmDefect(old(Tables()), id, reviewer, decision).writes)
      ensures journal == old(journal) + ConfirmDefect(old(Tables()), id, reviewer, decision).writes
      ensures outcome == ConfirmDefect(old(Tables()), id, reviewer, decision).outcome
    {
      if id !in defects {
        return Raised(NotFound);
      }
      if decision.None? {
        return Raised(InvalidValue);
      }
      ReplayOne(Tables(), DefectDecided(id, decision.value, reviewer));
      StoreDecision(id, decision.value, reviewer);
      outcome := Done;
    }

    /** One obligation for every required layer and every dimension, in nested loops. */
    method CreateObligations(id: Id)
      requires id in defects
      modifies this
      ensures Tables() == Replay(old(Tables()), ObligationWrites(old(Tables()), id))
      ensures journal == old(journal) + ObligationWrites(old(Tables()), id)
    {
      ghost var before, start := Tables(), journal;
      var layers, dimensions := RequiredLayers(defects[id]), Dimensions(Tables(), defects[id].observations);
      for l := 0 to |layers|
        invariant Tables() == Replay(before, ForLayers(id, layers[..l], dimensions))
        invariant journal == start + ForLayers(id, layers[..l], dimensions)
      {
        ghost var done, row := ForLayers(id, layers[..l], dimensions), ForLayer(id, layers[l], dimensions);
        Joined(start, done, row);
        ReplayAppend(before, done, row);
        NextLayer(id, layers, l, dimensions);
        InsertLayer(id, layers[l], dimensions);
      }
      assert layers[..|layers|] == layers;
    }

    /** The inner loop: one layer in every dimension. */
    method InsertLayer(id: Id, layer: Id, dimensions: seq<Id>)
      modifies this
      ensures Tables() == Replay(old(Tables()), ForLayer(id, layer, dimensions))
      ensures journal == old(journal) + ForLayer(id, layer, dimensions)
    {
      ghost var before, row := Tables(), ForLayer(id, layer, dimensions);
      for m := 0 to |dimensions|
        invariant Tables() == Replay(before, row[..m])
        invariant journal == old(journal) + row[..m]
      {
        NextWrite(before, row, m);
        InsertObligation(ObligationId(id, layer, dimensions[m]), Obligation(id, layer, dimensions[m], Pending));
      }
      assert row[..|dimensions|] == row;
    }

    method RegisterFix(id: Id, deployment: Option<Id>) returns (outcome: Outcome)
      modifies this
      ensures Tables() == Replay(old(Tables()), Defects.RegisterFix(old(Tables()), id, deployment).writes)
      ensures journal == old(journal) + Defects.RegisterFix(old(Tables()), id, deployment).writes
      ensures outcome == Defects.RegisterFix(old(Tables()), id, deployment).outcome
    {
      if id !in defects {
        return Raised(NotFound);
      }
      if defects[id].status !in {Confirmed, Assigned, FixInProgress, Reopened} {
        return Raised(NotFixable);
      }
      ghost var before := Tables();
      ReplayOne(before, FixRegistered(id, deployment));
      StoreFix(id, deployment);
      if Given(deployment) {
        ReplayAppend(before, [FixRegistered(id, deployment)], ObligationWrites(Tables(), id));
        CreateObligations(id);
      }
      outcome := Done;
    }

    method DispatchKeys(ks: seq<Id>)
      modifies this
      ensures Tables() == Replay(old(Tables()), DispatchAll(ks))
      ensures journal == old(journal) + DispatchAll(ks)
    {
      for i := 0 to |ks|
        invariant Tables() == Replay(old(Tables()), DispatchAll(ks)[..i])
        invariant journal == old(journal) + DispatchAll(ks)[..i]
      {
        NextWrite(old(Tables()), DispatchAll(ks), i);
        MarkDispatched(ks[i]);
      }
      assert DispatchAll(ks)[..|ks|] == DispatchAll(ks);
    }

    /** The obligations to dispatch, created first if there are none. */
    method RetestKeys(id: Id) returns (ks: seq<Id>)
      requires id in defects
      modifies this
      ensures var missing := ObligationsOf(old(Tables()), id) == [];
        var inserts := if missing then ObligationWrites(old(Tables()), id) else [];
        && Tables() == Replay(old(Tables()), inserts) && journal == old(journal) + inserts
        && ks == if missing then InsertedKeys(inserts) else ObligationsOf(old(Tables()), id)
    {
      ks := ObligationsOf(Tables(), id);
      if ks == [] {
        ks := InsertedKeys(ObligationWrites(Tables(), id));
        CreateObligations(id);
      }
    }

    method DispatchRetest(id: Id) returns (outcome: Outcome)
      modifies this
      ensures Tables() == Replay(old(Tables()), Defects.DispatchRetest(old(Tables()), id).writes)
      ensures journal == old(journal) + Defects.DispatchRetest(old(Tables()), id).writes
      ensures outcome == Defects.DispatchRetest(old(Tables()), id).outcome
    {
      if id !in defects {
        return Raised(NotFound);
      }
      if defects[id].status !in {ReadyForRetest, Retesting} {
        return Raised(NotReady);
      }
      ghost var before, start := Tables(), journal;
      ghost var inserts := if ObligationsOf(before, id) == [] then ObligationWrites(before, id) else [];
      var ks := RetestKeys(id);
      ReplayAppend(before, inserts, DispatchAll(ks) + [RetestStarted(id)]);
      Joined(start, inserts, DispatchAll(ks) + [RetestStarted(id)]);
      StartRetest(id, ks);
      outcome := Done;
    }

    method StartRetest(id: Id, ks: seq<Id>)
      modifies this
      ensures Tables() == Replay(old(Tables()), DispatchAll(ks) + [RetestStarted(id)])
      ensures journal == old(journal) + DispatchAll(ks) + [RetestStarted(id)]
    {
      ghost var before := Tables();
      DispatchKeys(ks);
      ReplayAppend(before, DispatchAll(ks), [RetestStarted(id)]);
      ReplayOne(Tables(), RetestStarted(id));
      MarkRetesting(id);
    }

    method RecordRetestResult(key: Id, result: ObligationStatus) returns (outcome: Outcome)
      modifies this
      ensures Tables() == Replay(old(Tables()), RecordResult(old(Tables()), key, result).writes)
      ensures journal == old(journal) + RecordResult(old(Tables()), key, result).writes
      ensures outcome == RecordResult(old(Tables()), key, result).outcome
    {
      if result !in {Pass, Fail, Blocked} {
        return Raised(InvalidValue);
      }
      if key !in obligations {
        return Raised(NotFound);
      }
      ghost var before := Tables();
      var id := obligations[key].defect;
      StoreResult(key, result);
      ReplayOne(before, ResultRecorded(key, result));
      ReplayAppend(before, [ResultRecorded(key, result)], Conclusion(Tables(), id));
      DrawConclusion(id);
      outcome := Done;
    }

    method DrawConclusion(id: Id)
      modifies this
      ensures Tables() == Replay(old(Tables()), Conclusion(old(Tables()), id))
      ensures journal == old(journal) + Conclusion(old(Tables()), id)
    {
      ReplayOne(Tables(), ConclusionDrawn(id, true));
      ReplayOne(Tables(), ConclusionDrawn(id, false));
      var ks := ObligationsOf(Tables(), id);
      if ks != [] && AllPassed(Tables(), ks) {
        StoreConclusion(id, true);
      } else if AnyFailed(Tables(), ks) {
        StoreConclusion(id, false);
      }
    }

    method Close(id: Id) returns (outcome: Outcome)
      modifies this
      ensures Tables() == Replay(old(Tables()), CloseDefect(old(Tables()), id).writes)
      ensures journal == old(journal) + CloseDefect(old(Tables()), id).writes
      ensures outcome == CloseDefect(old(Tables()), id).outcome
    {
      if id !in defects {
        return Raised(NotFound);
      }
      if ObligationsOf(Tables(), id) == [] || !AllPassed(Tables(), ObligationsOf(Tables(), id)) {
        return Raised(NotSatisfied);
      }
      if !defects[id].status.Verified? {
        return Raised(NotVerified);
      }
      ReplayOne(Tables(), DefectClosed(id));
      MarkClosed(id);
      outcome := Done;
    }
  }

  lemma {:induction false} Joined(journal: seq<Write>, first: seq<Write>, second: seq<Write>)
    ensures (journal + first) + second == journal + (first + second)
  {
  }

  lemma {:induction false} NextWrite(db: Db, writes: seq<Write>, i: nat)
    requires i < |writes|
    ensures Replay(db, writes[..i + 1]) == Apply(Replay(db, writes[..i]), writes[i])
  {
    assert writes[..i + 1][..i] == writes[..i];
  }

  lemma {:induction false} NextLayer(id: Id, layers: seq<Id>, l: nat, dimensions: seq<Id>)
    requires l < |layers|
    ensures ForLayers(id, layers[..l + 1], dimensions) == ForLayers(id, layers[..l], dimensions) +
        ForLayer(id, layers[l], dimensions)
  {
    assert layers[..l + 1][..l] == layers[..l];
  }
}

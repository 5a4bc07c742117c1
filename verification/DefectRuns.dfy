/** Runs from empty tables in which the properties that do not always hold fail. */
module DefectRuns {
  import opened Prelude
  import opened Defects
  import opened DefectInvariants
  import opened DefectTheorems
  import opened DefectCoverage
  import opened DefectRetest

  /** The tables after an operation that does not die. */
  function Complete(db: Db, op: Operation): (r: Db) {
    Replay(db, PlanOf(db, op).writes)
  }

  /** A run continued by an operation that does not die. */
  lemma {:induction false} Continue(steps: seq<Step>, op: Operation) returns (longer: seq<Step>)
    ensures Run(longer) == Complete(Run(steps), op)
    ensures Journal(longer) == Journal(steps) + PlanOf(Run(steps), op).writes
  {
    longer := steps + [Step(op, |PlanOf(Run(steps), op).writes|)];
    RunStep(steps, Step(op, |PlanOf(Run(steps), op).writes|));
  }

  lemma {:induction false} CompleteOne(db: Db, op: Operation, w: Write)
    requires PlanOf(db, op).writes == [w]
    ensures Complete(db, op) == Apply(db, w)
  {
    ReplayOne(db, w);
  }

  /** The tables with one observation, one diagnosis as a product defect, and the defect opened for it. */
  ghost predicate Single(db: Db, o: Id, obs: Observation, diagnosis: Id, row: Diagnosis, id: Id) {
    && row.observation == o && row.product
    && db.observations == map[o := obs] && db.diagnoses == map[diagnosis := row] && db.obligations == map[]
    && db.keys == []
    && db.order == [id] && db.defects.Keys == {id}
    && exists mode, actor :: db.defects[id] == NewDefect(mode, o, obs, actor)
  }

  /** The tables with one observation and one diagnosis. */
  function Diagnosed(o: Id, obs: Observation, diagnosis: Id, row: Diagnosis): (db: Db) {
    EMPTY.(observations := map[o := obs], diagnoses := map[diagnosis := row])
  }

  lemma {:induction false} DiagnosedRun(o: Id, obs: Observation, diagnosis: Id, row: Diagnosis)
      returns (steps: seq<Step>)
    requires row.observation == o
    ensures Run(steps) == Diagnosed(o, obs, diagnosis, row)
  {
    assert Run([]) == EMPTY;
    CompleteOne(EMPTY, OpObserve(o, obs), ObservationRecorded(o, obs));
    steps := Continue([], OpObserve(o, obs));
    CompleteOne(Run(steps), OpDiagnose(diagnosis, row), DiagnosisRecorded(diagnosis, row));
    steps := Continue(steps, OpDiagnose(diagnosis, row));
  }

  lemma {:induction false} FirstOpened(o: Id, obs: Observation, diagnosis: Id, row: Diagnosis, id: Id, severity: Id,
      actor: Id)
    requires row.observation == o && row.product
    ensures Single(Complete(Diagnosed(o, obs, diagnosis, row), OpCorrelate(diagnosis, id, severity, actor, id)),
                   o, obs, diagnosis, row, id)
  {
    var mode := ConfirmationMode(row.confidence, severity, obs.dimension);
    CompleteOne(Diagnosed(o, obs, diagnosis, row), OpCorrelate(diagnosis, id, severity, actor, id),
                DefectOpened(id, NewDefect(mode, o, obs, actor)));
  }

  lemma {:induction false} SingleRun(o: Id, obs: Observation, diagnosis: Id, row: Diagnosis, id: Id, severity: Id,
      actor: Id)
    returns (steps: seq<Step>)
    requires row.observation == o && row.product
    ensures Single(Run(steps), o, obs, diagnosis, row, id)
  {
    steps := DiagnosedRun(o, obs, diagnosis, row);
    FirstOpened(o, obs, diagnosis, row, id, severity, actor);
    steps := Continue(steps, OpCorrelate(diagnosis, id, severity, actor, id));
  }

  // ------------------------------------------------------------- a fix without a deployment

  lemma {:induction false} FixedWithout(db: Db, id: Id, actor: Id)
    requires id in db.defects && db.obligations == map[]
    ensures Undeployed(Complete(Complete(db, OpConfirm(id, actor, Some(Confirm))), OpRegisterFix(id, None)), id)
  {
    CompleteOne(db, OpConfirm(id, actor, Some(Confirm)), DefectDecided(id, Confirm, actor));
    var confirmed := Apply(db, DefectDecided(id, Confirm, actor));
    CompleteOne(confirmed, OpRegisterFix(id, None), FixRegistered(id, None));
  }

  /** A reachable defect that waits for its deployment and has no obligations. */
  lemma {:induction false} UndeployedRun(o: Id, obs: Observation, diagnosis: Id, row: Diagnosis, id: Id, actor: Id)
    returns (steps: seq<Step>)
    requires row.observation == o && row.product
    ensures Undeployed(Run(steps), id)
  {
    steps := SingleRun(o, obs, diagnosis, row, id, "S2", actor);
    FixedWithout(Run(steps), id, actor);
    steps := Continue(steps, OpConfirm(id, actor, Some(Confirm)));
    steps := Continue(steps, OpRegisterFix(id, None));
  }

  // ---------------------------------------------------- two open defects of one signature

  /** With its only defect set aside as a duplicate, the same diagnosis opens another one. */
  lemma {:induction false} ReopenedElsewhere(db: Db, o: Id, obs: Observation, diagnosis: Id, first: Id, second: Id,
      actor: Id)
    requires diagnosis in db.diagnoses && db.diagnoses[diagnosis].observation == o && db.diagnoses[diagnosis].product
    requires o in db.observations && db.observations[o] == obs
    requires db.order == [first] && first in db.defects && db.defects[first].status.Duplicate?
    requires second !in db.defects
    ensures var mode := ConfirmationMode(db.diagnoses[diagnosis].confidence, "S2", obs.dimension);
      Complete(db, OpCorrelate(diagnosis, second, "S2", actor, second)) ==
      Apply(db, DefectOpened(second, NewDefect(mode, o, obs, actor)))
  {
    assert !Candidate(db, first, obs.Signature());
    var mode := ConfirmationMode(db.diagnoses[diagnosis].confidence, "S2", obs.dimension);
    CompleteOne(db, OpCorrelate(diagnosis, second, "S2", actor, second),
      DefectOpened(second, NewDefect(mode, o, obs, actor)));
  }

  /** A defect set aside, and another open one of the same observation. */
  predicate Replaced(db: Db, o: Id, obs: Observation, first: Id, second: Id) {
    && o in db.observations && db.observations[o] == obs
    && first in db.defects && db.defects[first].observations == [o]
    && second in db.defects && db.defects[second].observations == [o] && Open(db, second)
  }

  lemma {:induction false} SetAside(db: Db, first: Id, actor: Id)
    requires first in db.defects
    ensures Complete(db, OpConfirm(first, actor, Some(MarkDuplicate))) ==
        Apply(db, DefectDecided(first, MarkDuplicate, actor))
  {
    CompleteOne(db, OpConfirm(first, actor, Some(MarkDuplicate)), DefectDecided(first, MarkDuplicate, actor));
  }

  lemma {:induction false} ReplacedTables(db: Db, o: Id, obs: Observation, first: Id, second: Id, mode: Mode, actor: Id)
    requires o in db.observations && db.observations[o] == obs && first != second
    requires first in db.defects && db.defects[first].observations == [o]
    ensures Replaced(Apply(db, DefectOpened(second, NewDefect(mode, o, obs, actor))), o, obs, first, second)
  {
  }

  lemma {:induction false} ReplacedRun(o: Id, obs: Observation, diagnosis: Id, row: Diagnosis, first: Id, second: Id,
      actor: Id)
    returns (steps: seq<Step>)
    requires row.observation == o && row.product && first != second
    ensures Replaced(Run(steps), o, obs, first, second)
  {
    steps := SingleRun(o, obs, diagnosis, row, first, "S2", actor);
    SetAside(Run(steps), first, actor);
    steps := Continue(steps, OpConfirm(first, actor, Some(MarkDuplicate)));
    ReopenedElsewhere(Run(steps), o, obs, diagnosis, first, second, actor);
    ReplacedTables(Run(steps), o, obs, first, second, ConfirmationMode(row.confidence, "S2", obs.dimension), actor);
    steps := Continue(steps, OpCorrelate(diagnosis, second, "S2", actor, second));
  }

  lemma {:induction false} FirstConfirmed(db: Db, o: Id, obs: Observation, first: Id, second: Id, actor: Id)
    requires Replaced(db, o, obs, first, second) && first != second
    ensures var r := Apply(db, DefectDecided(first, Confirm, actor));
      && Open(r, first) && Open(r, second)
      && SignatureOf(r, first) == SignatureOf(r, second) == Some(obs.Signature())
  {
  }

  /**
   A duplicate that is confirmed after all: meanwhile the same diagnosis has opened another
   defect, so two open defects share a signature.
   */
  lemma {:induction false} TwoOpenRun(o: Id, obs: Observation, diagnosis: Id, row: Diagnosis, first: Id, second: Id,
      actor: Id)
    returns (steps: seq<Step>)
    requires row.observation == o && row.product && first != second
    ensures Open(Run(steps), first) && Open(Run(steps), second)
    ensures SignatureOf(Run(steps), first) == SignatureOf(Run(steps), second) == Some(obs.Signature())
  {
    steps := ReplacedRun(o, obs, diagnosis, row, first, second, actor);
    FirstConfirmed(Run(steps), o, obs, first, second, actor);
    CompleteOne(Run(steps), OpConfirm(first, actor, Some(Confirm)), DefectDecided(first, Confirm, actor));
    steps := Continue(steps, OpConfirm(first, actor, Some(Confirm)));
  }

  // ------------------------------------------------------------------ an old result counts

  /** The journal closes the defect on a PASS recorded before its last fix. */
  ghost predicate ClosedOnOld(steps: seq<Step>, id: Id) {
    && CloseDefect(Run(steps), id).outcome.Done?
    && exists fix: nat, key ::
         && fix < |Journal(steps)| && Deploys(Journal(steps)[fix], id)
         && key in Run(steps).obligations && Run(steps).obligations[key].defect == id
         && NotRepeated(Journal(steps)[fix..], key)
  }

  /** A defect seen in two layers, both of them confirmed on record. */
  predicate SeenTwice(db: Db, id: Id, dimension: Id, la: Id, lb: Id) {
    && db.defects.Keys == {id} && db.defects[id].status.Confirmed? && db.obligations == map[]
    && DimensionAt(db, id) == dimension && la in db.defects[id].layers && lb in db.defects[id].layers
  }

  /** A second observation of the signature, in another layer, diagnosed as well. */
  lemma {:induction false} SecondDiagnosed(db: Db, p: Id, seen: Observation, again: Id, other: Diagnosis)
    requires p !in db.observations && again !in db.diagnoses && other.observation == p
    ensures Complete(Complete(db, OpObserve(p, seen)), OpDiagnose(again, other)) ==
            db.(observations := db.observations[p := seen], diagnoses := db.diagnoses[again := other])
  {
    CompleteOne(db, OpObserve(p, seen), ObservationRecorded(p, seen));
    CompleteOne(Complete(db, OpObserve(p, seen)), OpDiagnose(again, other), DiagnosisRecorded(again, other));
  }

  lemma {:induction false} MergedInto(db: Db, id: Id, o: Id, p: Id, again: Id, actor: Id)
    requires again in db.diagnoses && db.diagnoses[again].product && db.diagnoses[again].observation == p
    requires o in db.observations && p in db.observations
        && db.observations[o].Signature() == db.observations[p].Signature()
    requires Open(db, id) && o in db.defects[id].observations
    ensures Complete(db, OpCorrelate(again, id, "S2", actor, id)) == Apply(db, ObservationMerged(id, p))
  {
    assert Candidate(db, id, db.observations[p].Signature());
    CompleteOne(db, OpCorrelate(again, id, "S2", actor, id), ObservationMerged(id, p));
  }

  /** An open defect found by one observation, and another one of its signature that is diagnosed. */
  predicate Awaiting(db: Db, id: Id, o: Id, obs: Observation, p: Id, seen: Observation, again: Id) {
    && again in db.diagnoses && db.diagnoses[again].product && db.diagnoses[again].observation == p
    && o in db.observations && db.observations[o] == obs && p in db.observations && db.observations[p] == seen
    && db.defects.Keys == {id} && Open(db, id) && db.obligations == map[] && db.defects[id].observations == [o]
    && db.defects[id].layers == WithLayer([], obs.layer)
  }

  lemma {:induction false} AwaitingRun(o: Id, p: Id, obs: Observation, seen: Observation, diagnosis: Id, again: Id,
                                       row: Diagnosis, id: Id, actor: Id)
    returns (steps: seq<Step>)
    requires o != p && diagnosis != again && row.observation == o && row.product
    ensures Awaiting(Run(steps), id, o, obs, p, seen, again)
  {
    steps := SingleRun(o, obs, diagnosis, row, id, "S2", actor);
    SecondDiagnosed(Run(steps), p, seen, again, row.(observation := p));
    steps := Continue(steps, OpObserve(p, seen));
    steps := Continue(steps, OpDiagnose(again, row.(observation := p)));
  }

  lemma {:induction false} MergedTables(db: Db, id: Id, o: Id, obs: Observation, p: Id, seen: Observation, again: Id,
      actor: Id)
    requires Awaiting(db, id, o, obs, p, seen, again) && Given(obs.layer) && Given(seen.layer)
    ensures SeenTwice(Apply(Apply(db, ObservationMerged(id, p)), DefectDecided(id, Confirm, actor)), id,
        DimensionOf(obs),
                      obs.layer.value, seen.layer.value)
  {
  }

  lemma {:induction false} MergedAndConfirmed(db: Db, id: Id, o: Id, obs: Observation, p: Id, seen: Observation,
      again: Id, actor: Id)
    requires Awaiting(db, id, o, obs, p, seen, again) && Given(obs.layer) && Given(seen.layer)
    requires obs.Signature() == seen.Signature()
    ensures SeenTwice(Complete(Complete(db, OpCorrelate(again, id, "S2", actor, id)),
        OpConfirm(id, actor, Some(Confirm))),
                      id, DimensionOf(obs), obs.layer.value, seen.layer.value)
  {
    MergedInto(db, id, o, p, again, actor);
    MergedTables(db, id, o, obs, p, seen, again, actor);
    CompleteOne(Apply(db, ObservationMerged(id, p)), OpConfirm(id, actor, Some(Confirm)),
      DefectDecided(id, Confirm, actor));
  }

  lemma {:induction false} SeenTwiceRun(o: Id, p: Id, obs: Observation, seen: Observation, diagnosis: Id, again: Id,
                                        row: Diagnosis, id: Id, actor: Id)
    returns (steps: seq<Step>)
    requires o != p && diagnosis != again && row.observation == o && row.product
    requires Given(obs.layer) && Given(seen.layer) && obs.Signature() == seen.Signature()
    ensures SeenTwice(Run(steps), id, DimensionOf(obs), obs.layer.value, seen.layer.value)
  {
    steps := AwaitingRun(o, p, obs, seen, diagnosis, again, row, id, actor);
    MergedAndConfirmed(Run(steps), id, o, obs, p, seen, again, actor);
    steps := Continue(steps, OpCorrelate(again, id, "S2", actor, id));
    steps := Continue(steps, OpConfirm(id, actor, Some(Confirm)));
  }

  // From there: a fix, one pass, one failure, a second fix.

  /** Two obligations of the defect. */
  predicate TwoObligations(db: Db, id: Id, k: Id, l: Id) {
    && db.defects.Keys == {id} && k != l && k in db.obligations && l in db.obligations
    && db.obligations[k].defect == id && db.obligations[l].defect == id
  }

  lemma {:induction false} FixedIndex(db: Db, id: Id, deployment: Option<Id>, r: Db)
    requires Indexed(db) && RegisterFix(db, id, deployment).outcome.Done?
        && r == Replay(db, RegisterFix(db, id, deployment).writes)
    ensures Indexed(r) && r.defects.Keys == db.defects.Keys
  {
    FixKeeps(db, id, deployment);
    RegisterLegal(db, id, deployment);
    WritesKeepIndex(db, RegisterFix(db, id, deployment).writes);
  }

  lemma {:induction false} FixedKey(db: Db, id: Id, layer: Id, deployment: Option<Id>, r: Db, key: Id)
    requires Indexed(db) && id in db.defects && db.defects[id].status.Confirmed? && Given(deployment)
    requires layer in db.defects[id].layers && key == ObligationId(id, layer, DimensionAt(db, id))
    requires r == Replay(db, RegisterFix(db, id, deployment).writes)
    ensures key in r.obligations
  {
    FixAdds(db, id, deployment, r);
    assert Required(r.defects[id], layer);
    assert OnRecord(r, id, layer);
  }

  lemma {:induction false} FixedOnce(db: Db, id: Id, dimension: Id, la: Id, lb: Id, deployment: Option<Id>, k: Id,
      l: Id)
    requires Indexed(db) && SeenTwice(db, id, dimension, la, lb) && Given(deployment) && k != l
    requires k == ObligationId(id, la, dimension) && l == ObligationId(id, lb, dimension)
    ensures TwoObligations(Replay(db, RegisterFix(db, id, deployment).writes), id, k, l)
  {
    var r := Replay(db, RegisterFix(db, id, deployment).writes);
    FixedKey(db, id, la, deployment, r, k);
    FixedKey(db, id, lb, deployment, r, l);
    FixedIndex(db, id, deployment, r);
    OwnedByOne(r, id, k, l);
  }

  lemma {:induction false} OwnedByOne(r: Db, id: Id, k: Id, l: Id)
    requires Indexed(r) && r.defects.Keys == {id} && k != l && k in r.obligations && l in r.obligations
    ensures TwoObligations(r, id, k, l)
  {
  }

  lemma {:induction false} PassedOne(db: Db, id: Id, k: Id, l: Id)
    requires TwoObligations(db, id, k, l)
    ensures var r := Complete(db, OpRecordResult(k, Pass)); TwoObligations(r, id, k, l) && r.obligations[k].status.Pass?
  {
    PassStored(db, k);
    var w := ResultRecorded(k, Pass);
    ReplayAppend(db, [w], Conclusion(Apply(db, w), id));
    ReplayOne(db, w);
    ReplayOne(Apply(db, w), ConclusionDrawn(id, true));
    ReplayOne(Apply(db, w), ConclusionDrawn(id, false));
  }

  lemma {:induction false} FailureConcludes(db: Db, id: Id, l: Id)
    requires l in db.keys && l in db.obligations && db.obligations[l].defect == id && db.obligations[l].status.Fail?
    ensures Conclusion(db, id) == [ConclusionDrawn(id, false)]
  {
    assert l in ObligationsOf(db, id);
  }

  lemma {:induction false} FailurePlanned(db: Db, id: Id, l: Id)
    requires l in db.keys && l in db.obligations && db.obligations[l].defect == id
    ensures PlanOf(db, OpRecordResult(l, Fail)).writes == [ResultRecorded(l, Fail)] + [ConclusionDrawn(id, false)]
  {
    FailureConcludes(Apply(db, ResultRecorded(l, Fail)), id, l);
  }

  lemma {:induction false} FailedTables(db: Db, id: Id, k: Id, l: Id)
    requires TwoObligations(db, id, k, l) && db.obligations[k].status.Pass?
    ensures var r := Apply(Apply(db, ResultRecorded(l, Fail)), ConclusionDrawn(id, false));
      TwoObligations(r, id, k, l) && r.obligations[k].status.Pass? && r.defects[id].status.Reopened?
  {
  }

  /** A failure reopens the defect. */
  lemma {:induction false} FailedOne(db: Db, id: Id, k: Id, l: Id)
    requires Indexed(db) && TwoObligations(db, id, k, l) && db.obligations[k].status.Pass?
    ensures var r := Complete(db, OpRecordResult(l, Fail));
      TwoObligations(r, id, k, l) && r.obligations[k].status.Pass? && r.defects[id].status.Reopened?
  {
    FailurePlanned(db, id, l);
    ReplayPair(db, ResultRecorded(l, Fail), ConclusionDrawn(id, false));
    FailedTables(db, id, k, l);
  }

  /** The second fix leaves both obligations as they were. */
  lemma {:induction false} FixedTwice(db: Db, id: Id, k: Id, l: Id, deployment: Option<Id>)
    requires TwoObligations(db, id, k, l) && db.obligations[k].status.Pass? && db.defects[id].status.Reopened?
    ensures RegisterFix(db, id, deployment).outcome.Done?
        && HasSpare(Replay(db, RegisterFix(db, id, deployment).writes), id)
  {
    FixKeeps(db, id, deployment);
    var r := Replay(db, RegisterFix(db, id, deployment).writes);
    assert r.obligations[k] == db.obligations[k] && r.obligations[l] == db.obligations[l];
  }

  lemma {:induction false} FixedRun(start: seq<Step>, id: Id, dimension: Id, la: Id, lb: Id,
                                    deployment: Option<Id>, k: Id, l: Id)
    returns (steps: seq<Step>)
    requires SeenTwice(Run(start), id, dimension, la, lb) && Given(deployment) && k != l
    requires k == ObligationId(id, la, dimension) && l == ObligationId(id, lb, dimension)
    ensures TwoObligations(Run(steps), id, k, l)
  {
    RunIndexed(start);
    FixedOnce(Run(start), id, dimension, la, lb, deployment, k, l);
    FixPlanned(Run(start), id, deployment);
    steps := ContinueBy(start, OpRegisterFix(id, deployment), RegisterFix(Run(start), id, deployment).writes);
  }

  lemma {:induction false} PassedRun(start: seq<Step>, id: Id, k: Id, l: Id) returns (steps: seq<Step>)
    requires TwoObligations(Run(start), id, k, l)
    ensures TwoObligations(Run(steps), id, k, l) && Run(steps).obligations[k].status.Pass?
  {
    PassedOne(Run(start), id, k, l);
    steps := Continue(start, OpRecordResult(k, Pass));
  }

  lemma {:induction false} FailedAndFixed(start: seq<Step>, id: Id, k: Id, l: Id, again: Option<Id>)
      returns (steps: seq<Step>)
    requires TwoObligations(Run(start), id, k, l) && Run(start).obligations[k].status.Pass?
    ensures RegisterFix(Run(steps), id, again).outcome.Done?
    ensures HasSpare(Replay(Run(steps), RegisterFix(Run(steps), id, again).writes), id)
  {
    RunIndexed(start);
    FailedOne(Run(start), id, k, l);
    steps := Continue(start, OpRecordResult(l, Fail));
    FixedTwice(Run(steps), id, k, l, again);
  }

  lemma {:induction false} ObligationPersists(db: Db, writes: seq<Write>, k: Id)
    requires k in db.obligations
    ensures k in Replay(db, writes).obligations && Replay(db, writes).obligations[k].defect == db.obligations[k].defect
  {
    if writes != [] {
      ObligationPersists(db, writes[..|writes| - 1], k);
      ObligationKept(Replay(db, writes[..|writes| - 1]), writes[|writes| - 1], k);
    }
  }

  lemma {:induction false} FixRepeatsNothing(db: Db, id: Id, deployment: Option<Id>, key: Id)
    requires RegisterFix(db, id, deployment).outcome.Done?
    ensures var writes := RegisterFix(db, id, deployment).writes;
      writes != [] && writes[0] == FixRegistered(id, deployment) && NotRepeated(writes, key)
  {
    var mid := Apply(db, FixRegistered(id, deployment));
    ForLayersInsert(id, RequiredLayers(mid.defects[id]), Dimensions(mid, mid.defects[id].observations));
  }

  lemma {:induction false} SuffixNotRepeated(before: seq<Write>, fix: seq<Write>, later: seq<Write>, key: Id)
    requires fix != [] && NotRepeated(fix, key) && NotRepeated(later, key)
    ensures var all := (before + fix) + later;
      |before| < |all| && all[|before|] == fix[0] && NotRepeated(all[|before|..], key)
  {
    assert ((before + fix) + later)[|before|..] == fix + later;
  }

  lemma {:induction false} OldClosing(db: Db, id: Id, again: Option<Id>, r: Db) returns (more: seq<Step>, key: Id)
    requires Indexed(db) && RegisterFix(db, id, again).outcome.Done?
        && r == Replay(db, RegisterFix(db, id, again).writes)
    requires HasSpare(r, id)
    ensures ClosingRun(r, id, more, key)
    ensures var fix := RegisterFix(db, id, again).writes;
      fix != [] && fix[0] == FixRegistered(id, again) && NotRepeated(fix, key)
  {
    OldResultsCount(db, id, again);
    more, key :| ClosingRun(r, id, more, key);
    FixRepeatsNothing(db, id, again, key);
  }

  lemma {:induction false} ContinueBy(steps: seq<Step>, op: Operation, writes: seq<Write>) returns (longer: seq<Step>)
    requires writes == PlanOf(Run(steps), op).writes
    ensures Run(longer) == Replay(Run(steps), writes) && Journal(longer) == Journal(steps) + writes
  {
    longer := Continue(steps, op);
  }

  lemma {:induction false} ResultPlanned(db: Db, key: Id, result: ObligationStatus)
    ensures PlanOf(db, OpRecordResult(key, result)) == RecordResult(db, key, result)
  {
  }

  lemma {:induction false} FixPlanned(db: Db, id: Id, deployment: Option<Id>)
    ensures PlanOf(db, OpRegisterFix(id, deployment)) == RegisterFix(db, id, deployment)
  {
  }

  /** What comes after the second fix closes the defect, and never repeats the old PASS. */
  lemma {:induction false} ClosedAfter(steps: seq<Step>, id: Id, again: Option<Id>) returns (all: seq<Step>)
    requires RegisterFix(Run(steps), id, again).outcome.Done? && Given(again)
    requires HasSpare(Replay(Run(steps), RegisterFix(Run(steps), id, again).writes), id)
    ensures ClosedOnOld(all, id)
  {
    var fix := RegisterFix(Run(steps), id, again).writes;
    RunIndexed(steps);
    FixPlanned(Run(steps), id, again);
    var refixed := ContinueBy(steps, OpRegisterFix(id, again), fix);
    var more, key := OldClosing(Run(steps), id, again, Run(refixed));
    ClosedBy(steps, fix, refixed, more, id, key);
    all := refixed + more;
  }

  lemma {:induction false} ClosedBy(steps: seq<Step>, fix: seq<Write>, refixed: seq<Step>, more: seq<Step>, id: Id,
      key: Id)
    requires fix != [] && Deploys(fix[0], id) && NotRepeated(fix, key)
    requires Journal(refixed) == Journal(steps) + fix && ClosingRun(Run(refixed), id, more, key)
    ensures ClosedOnOld(refixed + more, id)
  {
    var later := JournalFrom(Run(refixed), more);
    RunSplit(refixed, more);
    SuffixNotRepeated(Journal(steps), fix, later, key);
    ObligationPersists(Run(refixed), later, key);
    WitnessOld(refixed + more, id, |Journal(steps)|, key);
  }

  lemma {:induction false} WitnessOld(steps: seq<Step>, id: Id, fix: nat, key: Id)
    requires CloseDefect(Run(steps), id).outcome.Done?
    requires fix < |Journal(steps)| && Deploys(Journal(steps)[fix], id)
    requires key in Run(steps).obligations && Run(steps).obligations[key].defect == id
    requires NotRepeated(Journal(steps)[fix..], key)
    ensures ClosedOnOld(steps, id)
  {
  }

  /**
   A run from empty tables, for any names: a defect seen in two layers, fixed, passed in one and
   failed in the other, fixed again, and closed on the PASS recorded for the first fix.
   */
  lemma {:induction false} ClosedOnOldRun(o: Id, p: Id, obs: Observation, seen: Observation, diagnosis: Id, again: Id,
                                          row: Diagnosis, id: Id, actor: Id, first: Id, second: Id)
    returns (steps: seq<Step>)
    requires o != p && diagnosis != again && row.observation == o && row.product && first != "" && second != ""
    requires Given(obs.layer) && Given(seen.layer) && obs.layer != seen.layer && obs.Signature() == seen.Signature()
    ensures ClosedOnOld(steps, id)
  {
    steps := SeenTwiceRun(o, p, obs, seen, diagnosis, again, row, id, actor);
    var la, lb := obs.layer.value, seen.layer.value;
    var k, l := ObligationId(id, la, DimensionOf(obs)), ObligationId(id, lb, DimensionOf(obs));
    KeysOfLayers(id, la, lb, DimensionOf(obs));
    steps := FixedRun(steps, id, DimensionOf(obs), la, lb, Some(first), k, l);
    steps := PassedRun(steps, id, k, l);
    steps := FailedAndFixed(steps, id, k, l, Some(second));
    steps := ClosedAfter(steps, id, Some(second));
  }
  // ------------------------------------------------------- a layer that is never retested

  /** The defect's layers and dimension are as they were. */
  ghost predicate Steady(db: Db, r: Db, id: Id) {
    && id in db.defects && r.defects.Keys == db.defects.Keys && DimensionAt(r, id) == DimensionAt(db, id)
    && r.defects[id].layers == db.defects[id].layers && r.defects[id].first == db.defects[id].first
  }

  lemma {:induction false} SteadyOne(db: Db, w: Write, id: Id)
    requires StatusOnly(w) && id in db.defects
    ensures Steady(db, Apply(db, w), id)
  {
    StatusFrame(db, w);
  }

  lemma {:induction false} SteadyOver(db: Db, writes: seq<Write>, id: Id)
    requires id in db.defects && forall w | w in writes :: StatusOnly(w)
    ensures Steady(db, Replay(db, writes), id)
  {
    if writes != [] {
      SteadyOver(db, writes[..|writes| - 1], id);
      assert StatusOnly(writes[|writes| - 1]);
      SteadyOne(Replay(db, writes[..|writes| - 1]), writes[|writes| - 1], id);
    }
  }

  lemma {:induction false} FixIsStatus(db: Db, id: Id, deployment: Option<Id>)
    requires id in db.defects
    ensures forall w | w in RegisterFix(db, id, deployment).writes :: StatusOnly(w)
  {
    var mid := Apply(db, FixRegistered(id, deployment));
    ForLayersInsert(id, RequiredLayers(mid.defects[id]), Dimensions(mid, mid.defects[id].observations));
  }

  lemma {:induction false} DispatchIsStatus(db: Db, id: Id)
    requires id in db.defects
    ensures forall w | w in DispatchRetest(db, id).writes :: StatusOnly(w)
  {
    ForLayersInsert(id, RequiredLayers(db.defects[id]), Dimensions(db, db.defects[id].observations));
  }

  /** One obligation of the defect on record, and a layer it needs without one. */
  ghost predicate LeftOut(db: Db, id: Id, key: Id, missing: Id) {
    && id in db.defects && key in db.obligations && db.obligations[key].defect == id
    && (forall k | k in db.obligations && db.obligations[k].defect == id :: k == key)
    && Required(db.defects[id], missing) && !OnRecord(db, id, missing)
  }

  /** With just the key of the first layer on record, that is the defect's only obligation. */
  lemma {:induction false} FirstIsAlone(db: Db, id: Id, layers: seq<Id>, dimension: Id)
    requires Indexed(db) && Covered(db) && IdsOfOneLength(db) && id in db.defects && |layers| >= 2
    requires dimension == DimensionAt(db, id) && forall l :: l in layers <==> Required(db.defects[id], l)
    requires forall i :: 0 <= i < |layers| ==> (ObligationId(id, layers[i], dimension) in db.obligations <==> i < 1)
    ensures LeftOut(db, id, ObligationId(id, layers[0], dimension), layers[1])
  {
    RowUnderKey(db, id, layers[0]);
    forall k | k in db.obligations && db.obligations[k].defect == id ensures k ==
        ObligationId(id, layers[0], dimension) {
      RowIsNeeded(db, k);
      assert db.obligations[k].layer in layers;
    }
  }
  lemma {:induction false} TwoElements(s: seq<Id>, a: Id, b: Id)
    requires a in s && b in s && a != b
    ensures |s| >= 2
  {
  }

  lemma {:induction false} TakeIsPrefix(writes: seq<Write>, n: nat)
    requires n <= |writes|
    ensures Take(writes, n) == writes[..n]
  {
  }

  lemma {:induction false} ShortOne(db: Db, id: Id, deployment: Option<Id>, writes: seq<Write>, i: nat)
    requires Indexed(db) && Covered(db) && IdsOfOneLength(db) && !HasObligation(db, id) && Given(deployment)
    requires RegisterFix(db, id, deployment).outcome.Done? && i < |RequiredLayers(db.defects[id])|
    requires writes == RegisterFix(db, id, deployment).writes && |writes| >= 2
    ensures var r := Replay(db, writes[..2]);
      var key := ObligationId(id, RequiredLayers(db.defects[id])[i], DimensionAt(db, id));
      key in Replay(r, DispatchRetest(r, id).writes).obligations <==> i < 1
  {
    PartialObligationsStay(db, id, deployment, 2, i);
  }

  /** Only the first insertion had been committed when the process died; then the retest is dispatched. */
  lemma {:induction false} DispatchedShort(db: Db, id: Id, deployment: Option<Id>, layers: seq<Id>, dimension: Id,
      r: Db, r2: Db)
    requires Indexed(db) && Covered(db) && IdsOfOneLength(db) && !HasObligation(db, id) && Given(deployment)
    requires RegisterFix(db, id, deployment).outcome.Done? && layers == RequiredLayers(db.defects[id])
    requires dimension == DimensionAt(db, id)
    requires r == Replay(db, Take(RegisterFix(db, id, deployment).writes, 2))
        && r2 == Replay(r, DispatchRetest(r, id).writes)
    ensures forall i :: 0 <= i < |layers| ==> (ObligationId(id, layers[i], dimension) in r2.obligations <==> i < 1)
  {
    if layers != [] {
      FixLength(db, id, deployment);
      TakeIsPrefix(RegisterFix(db, id, deployment).writes, 2);
    }
    forall i | 0 <= i < |layers| ensures ObligationId(id, layers[i], dimension) in r2.obligations <==> i < 1 {
      ShortOne(db, id, deployment, RegisterFix(db, id, deployment).writes, i);
    }
  }

  lemma {:induction false} ShortIsSteady(db: Db, id: Id, deployment: Option<Id>, r: Db, r2: Db)
    requires id in db.defects
    requires r == Replay(db, Take(RegisterFix(db, id, deployment).writes, 2))
        && r2 == Replay(r, DispatchRetest(r, id).writes)
    ensures Steady(db, r2, id)
  {
    FixIsStatus(db, id, deployment);
    SteadyOver(db, Take(RegisterFix(db, id, deployment).writes, 2), id);
    DispatchIsStatus(r, id);
    SteadyOver(r, DispatchRetest(r, id).writes, id);
  }

  lemma {:induction false} ShortTables(db: Db, r2: Db, id: Id, layers: seq<Id>, dimension: Id)
    requires Indexed(r2) && Covered(r2) && IdsOfOneLength(db) && Steady(db, r2, id) && dimension == DimensionAt(db, id)
    requires layers == RequiredLayers(db.defects[id]) && |layers| >= 2
    requires forall i :: 0 <= i < |layers| ==> (ObligationId(id, layers[i], dimension) in r2.obligations <==> i < 1)
    ensures LeftOut(r2, id, ObligationId(id, layers[0], dimension), layers[1])
  {
    assert forall l :: Required(r2.defects[id], l) <==> Required(db.defects[id], l);
    FirstIsAlone(r2, id, layers, dimension);
  }

  lemma {:induction false} ShortLeaves(db: Db, id: Id, layers: seq<Id>, dimension: Id, deployment: Option<Id>, r: Db,
      r2: Db)
    requires Indexed(db) && Covered(db) && IdsOfOneLength(db) && !HasObligation(db, id) && Given(deployment)
    requires RegisterFix(db, id, deployment).outcome.Done? && dimension == DimensionAt(db, id)
    requires layers == RequiredLayers(db.defects[id]) && |layers| >= 2
    requires r == Replay(db, Take(RegisterFix(db, id, deployment).writes, 2))
        && r2 == Replay(r, DispatchRetest(r, id).writes)
    requires Indexed(r2) && Covered(r2)
    ensures LeftOut(r2, id, ObligationId(id, layers[0], dimension), layers[1])
  {
    DispatchedShort(db, id, deployment, layers, dimension, r, r2);
    ShortIsSteady(db, id, deployment, r, r2);
    ShortTables(db, r2, id, layers, dimension);
  }

  lemma {:induction false} SeenTwiceNeedsTwo(db: Db, id: Id, dimension: Id, la: Id, lb: Id, deployment: Option<Id>)
    requires SeenTwice(db, id, dimension, la, lb) && la != lb
    ensures IdsOfOneLength(db) && !HasObligation(db, id) && RegisterFix(db, id, deployment).outcome.Done?
    ensures |RequiredLayers(db.defects[id])| >= 2 && dimension == DimensionAt(db, id)
  {
    assert Required(db.defects[id], la) && Required(db.defects[id], lb);
    TwoElements(RequiredLayers(db.defects[id]), la, lb);
  }

  lemma {:induction false} CrashedFix(start: seq<Step>, id: Id, deployment: Option<Id>) returns (steps: seq<Step>)
    ensures Run(steps) == Replay(Run(start), Take(RegisterFix(Run(start), id, deployment).writes, 2))
  {
    steps := start + [Step(OpRegisterFix(id, deployment), 2)];
    RunStep(start, Step(OpRegisterFix(id, deployment), 2));
  }

  lemma {:induction false} DispatchPlanned(db: Db, id: Id)
    ensures PlanOf(db, OpDispatch(id)) == DispatchRetest(db, id)
  {
  }

  lemma {:induction false} DispatchedRun(start: seq<Step>, id: Id) returns (steps: seq<Step>)
    ensures Run(steps) == Replay(Run(start), DispatchRetest(Run(start), id).writes)
    ensures Indexed(Run(steps)) && Covered(Run(steps))
  {
    DispatchPlanned(Run(start), id);
    steps := ContinueBy(start, OpDispatch(id), DispatchRetest(Run(start), id).writes);
    RunIndexed(steps);
    RunCovered(steps);
  }

  lemma {:induction false} ShortRun(start: seq<Step>, id: Id, dimension: Id, la: Id, lb: Id, deployment: Option<Id>)
    returns (steps: seq<Step>, key: Id, missing: Id)
    requires SeenTwice(Run(start), id, dimension, la, lb) && la != lb && Given(deployment)
    ensures LeftOut(Run(steps), id, key, missing)
  {
    RunIndexed(start);
    RunCovered(start);
    var crashed := CrashedFix(start, id, deployment);
    steps := DispatchedRun(crashed, id);
    var layers := RequiredLayers(Run(start).defects[id]);
    SeenTwiceNeedsTwo(Run(start), id, dimension, la, lb, deployment);
    ShortLeaves(Run(start), id, layers, dimension, deployment, Run(crashed), Run(steps));
    key, missing := ObligationId(id, layers[0], dimension), layers[1];
  }

  lemma {:induction false} LeftOutStays(db: Db, r: Db, id: Id, key: Id, missing: Id)
    requires LeftOut(db, id, key, missing) && Steady(db, r, id)
    requires r.obligations == db.obligations[key := db.obligations[key].(status := Pass)]
    ensures LeftOut(r, id, key, missing)
  {
    assert Required(r.defects[id], missing);
  }

  lemma {:induction false} PassedShort(db: Db, id: Id, key: Id, missing: Id, r: Db)
    requires Indexed(db) && LeftOut(db, id, key, missing) && r == Replay(db, RecordResult(db, key, Pass).writes)
    ensures LeftOut(r, id, key, missing) && CloseDefect(r, id).outcome.Done?
  {
    LastPassCloses(db, id, key);
    PassStored(db, key);
    SteadyOver(db, RecordResult(db, key, Pass).writes, id);
    LeftOutStays(db, r, id, key, missing);
  }

  lemma {:induction false} PassedShortRun(start: seq<Step>, id: Id, key: Id, missing: Id) returns (steps: seq<Step>)
    requires LeftOut(Run(start), id, key, missing)
    ensures LeftOut(Run(steps), id, key, missing) && CloseDefect(Run(steps), id).outcome.Done?
  {
    var writes := RecordResult(Run(start), key, Pass).writes;
    RunIndexed(start);
    PassedShort(Run(start), id, key, missing, Replay(Run(start), writes));
    ResultPlanned(Run(start), key, Pass);
    steps := ContinueBy(start, OpRecordResult(key, Pass), writes);
  }

  /**
   From empty tables, for any names: the process dies after the first of at least two obligations
   of a fix, the retest is dispatched, its only result is a PASS, and the defect can be closed
   although a layer it needs was never retested.
   */
  lemma {:induction false} UncoveredRun(o: Id, p: Id, obs: Observation, seen: Observation, diagnosis: Id, again: Id,
                                        row: Diagnosis, id: Id, actor: Id, deployment: Id)
    returns (steps: seq<Step>, missing: Id)
    requires o != p && diagnosis != again && row.observation == o && row.product && deployment != ""
    requires Given(obs.layer) && Given(seen.layer) && obs.layer != seen.layer && obs.Signature() == seen.Signature()
    ensures CloseDefect(Run(steps), id).outcome.Done?
    ensures Required(Run(steps).defects[id], missing) && !OnRecord(Run(steps), id, missing)
  {
    var key: Id;
    steps := SeenTwiceRun(o, p, obs, seen, diagnosis, again, row, id, actor);
    steps, key, missing := ShortRun(steps, id, DimensionOf(obs), obs.layer.value, seen.layer.value, Some(deployment));
    steps := PassedShortRun(steps, id, key, missing);
  }

  // ------------------------------------------------------ a result brings a defect back

  /** One defect, of one diagnosed observation, with an obligation. */
  predicate SingleFixed(db: Db, o: Id, obs: Observation, diagnosis: Id, row: Diagnosis, id: Id, key: Id) {
    && row.observation == o && row.product
    && db.observations == map[o := obs] && db.diagnoses == map[diagnosis := row] && db.order == [id]
    && db.defects.Keys == {id} && db.defects[id].observations == [o]
    && key in db.keys && key in db.obligations && db.obligations[key].defect == id
  }

  lemma {:induction false} FixTables(db: Db, id: Id, deployment: Option<Id>, r: Db)
    requires Given(deployment) && RegisterFix(db, id, deployment).outcome.Done?
    requires r == Replay(db, RegisterFix(db, id, deployment).writes)
    ensures r.observations == db.observations && r.diagnoses == db.diagnoses && r.order == db.order
    ensures r.defects == db.defects[id := db.defects[id].(status := ReadyForRetest, deployment := deployment)]
  {
    FixIs(db, id, deployment);
    InsertsAdd(Apply(db, FixRegistered(id, deployment)), id);
  }

  lemma {:induction false} SingleConfirmed(db: Db, o: Id, obs: Observation, diagnosis: Id, row: Diagnosis, id: Id,
      actor: Id)
    requires Single(db, o, obs, diagnosis, row, id) && Given(obs.layer)
    ensures var r := Apply(db, DefectDecided(id, Confirm, actor));
      && r.observations == map[o := obs] && r.diagnoses == map[diagnosis := row] && r.order == [id]
      && r.defects.Keys == {id}
      && r.defects[id].observations == [o] && r.defects[id].layers == [obs.layer.value]
      && r.defects[id].status.Confirmed?
  {
  }

  lemma {:induction false} SingleOwner(db: Db, id: Id, key: Id)
    requires Indexed(db) && db.defects.Keys == {id} && key in db.obligations
    ensures key in db.keys && db.obligations[key].defect == id
  {
    assert db.obligations[key].defect in db.defects.Keys;
  }

  lemma {:induction false} StaysSingle(db: Db, id: Id, r: Db)
    requires db.defects.Keys == {id} && id in r.defects && r.defects == db.defects[id := r.defects[id]]
    ensures r.defects.Keys == {id}
  {
  }

  lemma {:induction false} FixedSingle(db: Db, o: Id, obs: Observation, diagnosis: Id, row: Diagnosis, id: Id,
      deployment: Option<Id>, r: Db, key: Id)
    requires Indexed(db) && Indexed(r) && Given(deployment) && row.observation == o && row.product && Given(obs.layer)
    requires db.observations == map[o := obs] && db.diagnoses == map[diagnosis := row] && db.order == [id]
        && db.defects.Keys == {id}
    requires db.defects[id].observations == [o] && db.defects[id].layers == [obs.layer.value]
        && db.defects[id].status.Confirmed?
    requires r == Replay(db, RegisterFix(db, id, deployment).writes)
    requires key == ObligationId(id, obs.layer.value, DimensionAt(db, id))
    ensures SingleFixed(r, o, obs, diagnosis, row, id, key)
  {
    FixTables(db, id, deployment, r);
    FixedKey(db, id, obs.layer.value, deployment, r, key);
    StaysSingle(db, id, r);
    SingleOwner(r, id, key);
  }

  lemma {:induction false} SingleFixedRun(o: Id, obs: Observation, diagnosis: Id, row: Diagnosis, id: Id, actor: Id,
      deployment: Option<Id>)
    returns (steps: seq<Step>, key: Id)
    requires row.observation == o && row.product && Given(deployment) && Given(obs.layer)
    ensures SingleFixed(Run(steps), o, obs, diagnosis, row, id, key)
  {
    steps := SingleRun(o, obs, diagnosis, row, id, "S2", actor);
    CompleteOne(Run(steps), OpConfirm(id, actor, Some(Confirm)), DefectDecided(id, Confirm, actor));
    SingleConfirmed(Run(steps), o, obs, diagnosis, row, id, actor);
    steps := Continue(steps, OpConfirm(id, actor, Some(Confirm)));
    var db := Run(steps);
    RunIndexed(steps);
    FixPlanned(db, id, deployment);
    steps := ContinueBy(steps, OpRegisterFix(id, deployment), RegisterFix(db, id, deployment).writes);
    RunIndexed(steps);
    FixedSingle(db, o, obs, diagnosis, row, id, deployment, Run(steps),
      ObligationId(id, obs.layer.value, DimensionAt(db, id)));
    key := ObligationId(id, obs.layer.value, DimensionAt(db, id));
  }

  /** The first defect set aside, the second opened, and the obligation of the first still there. */
  predicate AsideWithKey(db: Db, o: Id, obs: Observation, first: Id, second: Id, key: Id) {
    && Replaced(db, o, obs, first, second) && !Open(db, first) && key in db.keys && key in db.obligations
    && db.obligations[key].defect == first
  }

  lemma {:induction false} AsideTables(db: Db, o: Id, obs: Observation, diagnosis: Id, row: Diagnosis, first: Id,
      second: Id, key: Id,
                                       actor: Id)
    requires SingleFixed(db, o, obs, diagnosis, row, first, key) && first != second
    ensures AsideWithKey(Complete(Complete(db, OpConfirm(first, actor, Some(MarkDuplicate))),
                                  OpCorrelate(diagnosis, second, "S2", actor, second)), o, obs, first, second, key)
  {
    SetAside(db, first, actor);
    var aside := Apply(db, DefectDecided(first, MarkDuplicate, actor));
    ReopenedElsewhere(aside, o, obs, diagnosis, first, second, actor);
    ReplacedTables(aside, o, obs, first, second, ConfirmationMode(row.confidence, "S2", obs.dimension), actor);
  }

  lemma {:induction false} FailureRevives(db: Db, o: Id, obs: Observation, first: Id, second: Id, key: Id)
    requires AsideWithKey(db, o, obs, first, second, key) && first != second
    ensures var r := Complete(db, OpRecordResult(key, Fail));
      && Open(r, first) && Open(r, second)
      && SignatureOf(r, first) == SignatureOf(r, second) == Some(obs.Signature())
  {
    FailurePlanned(db, first, key);
    ReplayPair(db, ResultRecorded(key, Fail), ConclusionDrawn(first, false));
  }

  /**
   From empty tables, for any names: a defect with an obligation is set aside as a duplicate, the
   same diagnosis opens another one, and a failed result recorded for the first brings it back, so
   two open defects share a signature.
   */
  lemma {:induction false} RevivedByResult(o: Id, obs: Observation, diagnosis: Id, row: Diagnosis, first: Id,
      second: Id,
                                           actor: Id, deployment: Id)
    returns (steps: seq<Step>, key: Id)
    requires row.observation == o && row.product && first != second && deployment != "" && Given(obs.layer)
    ensures var r := Complete(Run(steps), OpRecordResult(key, Fail));
      && !Open(Run(steps), first) && Open(r, first) && Open(r, second)
      && SignatureOf(r, first) == SignatureOf(r, second) == Some(obs.Signature())
  {
    steps, key := SingleFixedRun(o, obs, diagnosis, row, first, actor, Some(deployment));
    AsideTables(Run(steps), o, obs, diagnosis, row, first, second, key, actor);
    steps := Continue(steps, OpConfirm(first, actor, Some(MarkDuplicate)));
    steps := Continue(steps, OpCorrelate(diagnosis, second, "S2", actor, second));
    FailureRevives(Run(steps), o, obs, first, second, key);
  }
}

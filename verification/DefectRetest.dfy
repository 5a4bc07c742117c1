/** Which results a defect is closed on: those of its latest fix only, or older ones too. */
module DefectRetest {
  import opened Prelude
  import opened Defects
  import opened DefectInvariants
  import opened DefectTheorems

  // ---------------------------------------------------------------- runs from any tables

  /** What a run that starts from these tables commits. */
  function JournalFrom(db: Db, steps: seq<Step>): (writes: seq<Write>) {
    if steps == [] then []
    else
      var front, last := JournalFrom(db, steps[..|steps| - 1]), steps[|steps| - 1];
      front + Take(PlanOf(Replay(db, front), last.op).writes, last.survives)
  }

  function RunFrom(db: Db, steps: seq<Step>): (r: Db) {
    Replay(db, JournalFrom(db, steps))
  }

  lemma {:induction false} RunFromStep(db: Db, steps: seq<Step>, step: Step)
    ensures JournalFrom(db, steps + [step]) ==
            JournalFrom(db, steps) + Take(PlanOf(RunFrom(db, steps), step.op).writes, step.survives)
    ensures RunFrom(db, steps + [step]) == After(RunFrom(db, steps), step)
  {
    assert (steps + [step])[..|steps|] == steps;
    ReplayAppend(db, JournalFrom(db, steps), Take(PlanOf(RunFrom(db, steps), step.op).writes, step.survives));
  }

  lemma {:induction false} Joined(a: seq<Write>, b: seq<Write>, c: seq<Write>)
    ensures (a + b) + c == a + (b + c)
  {
  }

  lemma {:induction false} FrontAndLast<T>(s: seq<T>)
    requires s != []
    ensures s == s[..|s| - 1] + [s[|s| - 1]]
  {
  }

  /** A run continued is the run from the tables it has reached. */
  lemma {:induction false} RunSplit(steps: seq<Step>, more: seq<Step>)
    ensures Journal(steps + more) == Journal(steps) + JournalFrom(Run(steps), more)
    ensures Run(steps + more) == RunFrom(Run(steps), more)
  {
    if more == [] {
      assert steps + more == steps;
      assert Journal(steps) + [] == Journal(steps);
    } else {
      var front, last := more[..|more| - 1], more[|more| - 1];
      RunSplit(steps, front);
      SplitLast(steps, more);
      FrontAndLast(more);
      RunStep(steps + front, last);
      RunFromStep(Run(steps), front, last);
      Joined(Journal(steps), JournalFrom(Run(steps), front),
        Take(PlanOf(Run(steps + front), last.op).writes, last.survives));
    }
  }

  // --------------------------------------------------------------------- closing on old results

  predicate NoFix(steps: seq<Step>, id: Id) {
    forall step | step in steps :: step.op.OpRegisterFix? ==> step.op.id != id
  }

  predicate NotRepeated(writes: seq<Write>, key: Id) {
    forall w | w in writes :: w.ResultRecorded? ==> w.key != key
  }

  /** From these tables, without another fix, the defect gets closed on the PASS this obligation already has. */
  ghost predicate ClosingRun(db: Db, id: Id, steps: seq<Step>, key: Id) {
    && key in db.obligations && db.obligations[key].defect == id && db.obligations[key].status.Pass?
    && NoFix(steps, id) && NotRepeated(JournalFrom(db, steps), key)
    && CloseDefect(RunFrom(db, steps), id).outcome.Done?
  }

  ghost predicate ClosesOnOld(db: Db, id: Id) {
    exists steps, key :: ClosingRun(db, id, steps, key)
  }

  /** A PASS of the defect, and another obligation whose result is still to come or to be repeated. */
  predicate HasSpare(db: Db, id: Id) {
    exists key, other | key in db.obligations && other in db.obligations ::
      && key != other && db.obligations[key].defect == id && db.obligations[other].defect == id
      && db.obligations[key].status.Pass?
  }

  // With a single obligation, nothing verifies the defect but a result for it.

  predicate OnlyOne(db: Db, id: Id, key: Id) {
    && id in db.defects && !db.defects[id].status.Verified?
    && key in db.obligations && db.obligations[key].defect == id
    && forall k | k in db.obligations && db.obligations[k].defect == id :: k == key
  }

  /** Commits that neither add an obligation of the defect nor draw a conclusion about it. */
  predicate Harmless(writes: seq<Write>, id: Id) {
    forall w | w in writes :: !(w.ConclusionDrawn? && w.id == id)
        && !(w.ObligationInserted? && w.obligation.defect == id)
  }

  lemma {:induction false} OneStays(db: Db, w: Write, id: Id, key: Id)
    requires OnlyOne(db, id, key) && Legal(db, w) && Harmless([w], id)
    ensures OnlyOne(Apply(db, w), id, key)
  {
    assert w in [w];
    ObligationKept(db, w, key);
    if Decides(w, id) {
      DecidedFrame(db, w, id);
    } else {
      UndecidedFrame(db, w, id);
    }
    forall k | k in Apply(db, w).obligations && Apply(db, w).obligations[k].defect == id ensures k == key {
      ObligationRowFrame(db, w, k);
    }
  }

  lemma {:induction false} OneKept(db: Db, writes: seq<Write>, id: Id, key: Id)
    requires OnlyOne(db, id, key) && AllLegal(db, writes) && Harmless(writes, id)
    ensures OnlyOne(Replay(db, writes), id, key)
  {
    if writes != [] {
      OneKept(db, writes[..|writes| - 1], id, key);
      OneStays(Replay(db, writes[..|writes| - 1]), writes[|writes| - 1], id, key);
    }
  }

  lemma {:induction false} OtherInsertsHarmless(writes: seq<Write>, of: Id, id: Id)
    requires InsertsFor(writes, of) && of != id
    ensures Harmless(writes, id)
  {
  }

  lemma {:induction false} RegisterHarmless(db: Db, of: Id, deployment: Option<Id>, id: Id)
    requires of != id
    ensures Harmless(RegisterFix(db, of, deployment).writes, id)
  {
    if of in db.defects {
      var mid := Apply(db, FixRegistered(of, deployment));
      ForLayersInsert(of, RequiredLayers(mid.defects[of]), Dimensions(mid, mid.defects[of].observations));
      OtherInsertsHarmless(ObligationWrites(mid, of), of, id);
    }
  }

  lemma {:induction false} DispatchHarmless(db: Db, of: Id, id: Id)
    requires of == id ==> ObligationsOf(db, id) != []
    ensures Harmless(DispatchRetest(db, of).writes, id)
  {
    if of in db.defects && of != id {
      ForLayersInsert(of, RequiredLayers(db.defects[of]), Dimensions(db, db.defects[of].observations));
      OtherInsertsHarmless(ObligationWrites(db, of), of, id);
    }
  }

  lemma {:induction false} CorrelateHarmless(db: Db, diagnosis: Id, newId: Id, severity: Id, actor: Id, pick: Id,
      id: Id)
    ensures Harmless(Correlate(db, diagnosis, newId, severity, actor, pick).writes, id)
  {
  }

  lemma {:induction false} PlainHarmless(db: Db, op: Operation, id: Id)
    requires !op.OpRegisterFix? && !op.OpDispatch? && !op.OpRecordResult? && !op.OpCorrelate?
    ensures Harmless(PlanOf(db, op).writes, id)
  {
  }

  lemma {:induction false} OthersHarmless(db: Db, op: Operation, id: Id, key: Id)
    requires Indexed(db) && OnlyOne(db, id, key) && (op.OpRegisterFix? ==> op.id != id) && !op.OpRecordResult?
    ensures Harmless(PlanOf(db, op).writes, id)
  {
    match op
    case OpRegisterFix(of, deployment) => RegisterHarmless(db, of, deployment, id);
    case OpDispatch(of) =>
      assert key in ObligationsOf(db, id);
      DispatchHarmless(db, of, id);
    case OpCorrelate(diagnosis, newId, severity, actor, pick) =>
      CorrelateHarmless(db, diagnosis, newId, severity, actor, pick, id);
    case _ => PlainHarmless(db, op, id);
  }

  lemma {:induction false} StepHarmless(db: Db, step: Step, id: Id, key: Id)
    requires Indexed(db) && OnlyOne(db, id, key) && (step.op.OpRegisterFix? ==> step.op.id != id)
    requires NotRepeated(Take(PlanOf(db, step.op).writes, step.survives), key)
    ensures Harmless(Take(PlanOf(db, step.op).writes, step.survives), id)
  {
    if step.op.OpRecordResult? {
      ResultHarmless(db, step.op.key, step.op.result, step.survives, id, key);
    } else {
      OthersHarmless(db, step.op, id, key);
      PrefixHarmless(PlanOf(db, step.op).writes, step.survives, id);
    }
  }

  lemma {:induction false} PrefixHarmless(writes: seq<Write>, n: nat, id: Id)
    requires Harmless(writes, id)
    ensures Harmless(Take(writes, n), id)
  {
  }

  lemma {:induction false} ResultHarmless(db: Db, k: Id, result: ObligationStatus, survives: nat, id: Id, key: Id)
    requires OnlyOne(db, id, key) && NotRepeated(Take(RecordResult(db, k, result).writes, survives), key)
    ensures Harmless(Take(RecordResult(db, k, result).writes, survives), id)
  {
    var kept := Take(RecordResult(db, k, result).writes, survives);
    if kept != [] {
      assert kept[0] == ResultRecorded(k, result) && kept[0] in kept;
      assert k != key;
    }
  }

  lemma {:induction false} OneAfter(db: Db, step: Step, id: Id, key: Id)
    requires Indexed(db) && OnlyOne(db, id, key) && (step.op.OpRegisterFix? ==> step.op.id != id)
    requires NotRepeated(Take(PlanOf(db, step.op).writes, step.survives), key)
    ensures Indexed(After(db, step)) && OnlyOne(After(db, step), id, key)
  {
    StepHarmless(db, step, id, key);
    StepLegal(db, step);
    StepKeepsIndex(db, step);
    OneKept(db, Take(PlanOf(db, step.op).writes, step.survives), id, key);
  }

  lemma {:induction false} OneThroughout(db: Db, steps: seq<Step>, id: Id, key: Id)
    requires Indexed(db) && OnlyOne(db, id, key) && NoFix(steps, id) && NotRepeated(JournalFrom(db, steps), key)
    ensures Indexed(RunFrom(db, steps)) && OnlyOne(RunFrom(db, steps), id, key)
  {
    if steps != [] {
      var front, last := steps[..|steps| - 1], steps[|steps| - 1];
      FrontAndLast(steps);
      RunFromStep(db, front, last);
      OneThroughout(db, front, id, key);
      OneAfter(RunFrom(db, front), last, id, key);
    }
  }

  // With another obligation, repeating the others verifies it.

  function Repeat(key: Id): (step: Step) {
    Step(OpRecordResult(key, Pass), 2)
  }

  function Repeats(keys: seq<Id>): (steps: seq<Step>) {
    if keys == [] then [] else Repeats(keys[..|keys| - 1]) + [Repeat(keys[|keys| - 1])]
  }

  /** These obligations have a PASS now, and the others are as they were. */
  ghost predicate Passed(db: Db, r: Db, keys: seq<Id>) {
    && r.obligations.Keys == db.obligations.Keys
    && forall k | k in db.obligations ::
         r.obligations[k] == if k in keys then db.obligations[k].(status := Pass) else db.obligations[k]
  }

  lemma {:induction false} RepeatWrites(db: Db, key: Id)
    requires key in db.obligations
    ensures Take(PlanOf(db, Repeat(key).op).writes, Repeat(key).survives) == RecordResult(db, key, Pass).writes
    ensures forall w | w in RecordResult(db, key, Pass).writes :: w.ResultRecorded? ==> w.key == key
  {
  }

  lemma {:induction false} PassStored(db: Db, key: Id)
    requires key in db.obligations
    ensures Replay(db, RecordResult(db, key, Pass).writes).obligations ==
        db.obligations[key := db.obligations[key].(status := Pass)]
  {
    var first := ResultRecorded(key, Pass);
    ReplayAppend(db, [first], Conclusion(Apply(db, first), db.obligations[key].defect));
    ReplayOne(db, first);
    ConclusionKeepsRows(Apply(db, first), db.obligations[key].defect);
  }

  lemma {:induction false} ConclusionKeepsRows(db: Db, id: Id)
    ensures Replay(db, Conclusion(db, id)).obligations == db.obligations
  {
    if Conclusion(db, id) != [] {
      ReplayOne(db, Conclusion(db, id)[0]);
      assert Conclusion(db, id) == [Conclusion(db, id)[0]];
    }
  }

  lemma {:induction false} PassOne(db: Db, mid: Db, r: Db, keys: seq<Id>, key: Id)
    requires Passed(db, mid, keys) && key in mid.obligations
    requires r.obligations == mid.obligations[key := mid.obligations[key].(status := Pass)]
    ensures Passed(db, r, keys + [key])
  {
  }

  lemma {:induction false} RepeatNext(db: Db, mid: Db, steps: seq<Step>, keys: seq<Id>, key: Id, passed: Id)
    requires mid == RunFrom(db, steps) && Indexed(mid) && Passed(db, mid, keys)
    requires key in db.obligations && key != passed && NotRepeated(JournalFrom(db, steps), passed)
    ensures var r := RunFrom(db, steps + [Repeat(key)]);
      && Indexed(r) && Passed(db, r, keys + [key]) && r == Replay(mid, RecordResult(mid, key, Pass).writes)
    ensures NotRepeated(JournalFrom(db, steps + [Repeat(key)]), passed)
  {
    var writes := RecordResult(mid, key, Pass).writes;
    RunFromStep(db, steps, Repeat(key));
    RepeatWrites(mid, key);
    StillNotRepeated(JournalFrom(db, steps), writes, key, passed);
    PassStored(mid, key);
    ResultLegal(mid, key, Pass);
    WritesKeepIndex(mid, writes);
    PassOne(db, mid, Replay(mid, writes), keys, key);
  }

  lemma {:induction false} StillNotRepeated(journal: seq<Write>, writes: seq<Write>, key: Id, passed: Id)
    requires NotRepeated(journal, passed) && key != passed
    requires forall w | w in writes :: w.ResultRecorded? ==> w.key == key
    ensures NotRepeated(journal + writes, passed)
  {
  }

  lemma {:induction false} RepeatsPass(db: Db, keys: seq<Id>, passed: Id)
    requires Indexed(db) && passed !in keys && forall k | k in keys :: k in db.obligations
    ensures var r := RunFrom(db, Repeats(keys)); Indexed(r) && Passed(db, r, keys)
    ensures NotRepeated(JournalFrom(db, Repeats(keys)), passed)
  {
    if keys != [] {
      var front, last := keys[..|keys| - 1], keys[|keys| - 1];
      FrontAndLast(keys);
      RepeatsPass(db, front, passed);
      RepeatNext(db, RunFrom(db, Repeats(front)), Repeats(front), front, last, passed);
    }
  }

  lemma {:induction false} RepeatsOnly(keys: seq<Id>, id: Id)
    ensures NoFix(Repeats(keys), id)
  {
    if keys != [] {
      RepeatsOnly(keys[..|keys| - 1], id);
    }
  }

  lemma {:induction false} SameObligations(db: Db, r: Db, keys: seq<Id>, id: Id)
    requires r.obligations == db.obligations
    ensures KeysOf(r, keys, id) == KeysOf(db, keys, id)
  {
    if keys != [] {
      SameObligations(db, r, keys[1..], id);
    }
  }

  lemma {:induction false} NowAllPassed(db: Db, id: Id, key: Id)
    requires key in db.keys && key in db.obligations && db.obligations[key].defect == id && id in db.defects
    requires forall k | k in db.obligations && db.obligations[k].defect == id :: db.obligations[k].status.Pass?
    ensures Conclusion(db, id) == [ConclusionDrawn(id, true)]
    ensures CloseDefect(Apply(db, ConclusionDrawn(id, true)), id).outcome.Done?
  {
    assert key in ObligationsOf(db, id);
    SameObligations(db, Apply(db, ConclusionDrawn(id, true)), db.keys, id);
  }

  /** The last missing PASS verifies the defect, and then it can be closed. */
  lemma {:induction false} LastPassCloses(db: Db, id: Id, key: Id)
    requires Indexed(db) && key in db.obligations && db.obligations[key].defect == id
    requires forall k | k in db.obligations && db.obligations[k].defect == id && k != key ::
        db.obligations[k].status.Pass?
    ensures CloseDefect(Replay(db, RecordResult(db, key, Pass).writes), id).outcome.Done?
  {
    NowAllPassed(Apply(db, ResultRecorded(key, Pass)), id, key);
    ReplayPair(db, ResultRecorded(key, Pass), ConclusionDrawn(id, true));
  }

  lemma {:induction false} RepeatingOthersCloses(db: Db, id: Id, passed: Id, others: seq<Id>)
    requires Indexed(db) && others != [] && passed !in others
    requires passed in db.obligations && db.obligations[passed].defect == id && db.obligations[passed].status.Pass?
    requires forall k | k in others :: k in db.obligations && db.obligations[k].defect == id
    requires forall k | k in db.obligations && db.obligations[k].defect == id && k != passed :: k in others
    ensures ClosingRun(db, id, Repeats(others), passed)
  {
    var front, last := others[..|others| - 1], others[|others| - 1];
    FrontAndLast(others);
    RepeatsPass(db, front, passed);
    RepeatsOnly(others, id);
    var mid := RunFrom(db, Repeats(front));
    RepeatNext(db, mid, Repeats(front), front, last, passed);
    LastRepeatCloses(db, mid, id, passed, front, last);
  }

  lemma {:induction false} LastRepeatCloses(db: Db, mid: Db, id: Id, passed: Id, front: seq<Id>, last: Id)
    requires Indexed(mid) && Passed(db, mid, front) && last in db.obligations && db.obligations[last].defect == id
    requires passed in db.obligations && db.obligations[passed].status.Pass?
    requires forall k | k in db.obligations && db.obligations[k].defect == id && k != passed :: k in front + [last]
    ensures CloseDefect(Replay(mid, RecordResult(mid, last, Pass).writes), id).outcome.Done?
  {
    LastPassCloses(mid, id, last);
  }

  function Without(keys: seq<Id>, key: Id): (r: seq<Id>)
    ensures forall k :: k in r <==> k in keys && k != key
  {
    if keys == [] then [] else (if keys[0] == key then [] else [keys[0]]) + Without(keys[1..], key)
  }

  lemma {:induction false} SpareCloses(db: Db, id: Id)
    requires Indexed(db) && HasSpare(db, id)
    ensures ClosesOnOld(db, id)
  {
    var key, other :| key in db.obligations && other in db.obligations && key != other
                      && db.obligations[key].defect == id && db.obligations[other].defect == id
                      && db.obligations[key].status.Pass?;
    var others := Without(ObligationsOf(db, id), key);
    assert other in others;
    RepeatingOthersCloses(db, id, key, others);
  }

  lemma {:induction false} ClosesOnOldIff(db: Db, id: Id)
    requires Indexed(db) && id in db.defects && !db.defects[id].status.Verified?
    ensures ClosesOnOld(db, id) <==> HasSpare(db, id)
  {
    if HasSpare(db, id) {
      SpareCloses(db, id);
    } else if ClosesOnOld(db, id) {
      var steps, key :| ClosingRun(db, id, steps, key);
      OneThroughout(db, steps, id, key);
    }
  }

  /**
   After a fix is registered, deployed or not, some continuation without a further fix closes the
   defect on a result recorded before it, exactly when the defect then has a PASS and at least
   one other obligation: registering a fix resets no result, and no retest has to be dispatched.
   */
  lemma {:induction false} OldResultsCount(db: Db, id: Id, deployment: Option<Id>)
    requires Indexed(db) && RegisterFix(db, id, deployment).outcome.Done?
    ensures var r := Replay(db, RegisterFix(db, id, deployment).writes);
      ClosesOnOld(r, id) <==> HasSpare(r, id)
  {
    var writes := RegisterFix(db, id, deployment).writes;
    RegisterLegal(db, id, deployment);
    WritesKeepIndex(db, writes);
    FixKeeps(db, id, deployment);
    ClosesOnOldIff(Replay(db, writes), id);
  }

  lemma {:induction false} FixKeeps(db: Db, id: Id, deployment: Option<Id>)
    requires RegisterFix(db, id, deployment).outcome.Done?
    ensures var r := Replay(db, RegisterFix(db, id, deployment).writes);
      && id in r.defects && r.defects[id].status == (if Given(deployment) then ReadyForRetest else WaitingDeployment)
      && r.defects.Keys == db.defects.Keys
      && forall k | k in db.obligations :: k in r.obligations && r.obligations[k] == db.obligations[k]
  {
    var fix := FixRegistered(id, deployment);
    var mid := Apply(db, fix);
    ReplayOne(db, fix);
    if Given(deployment) {
      ForLayersInsert(id, RequiredLayers(mid.defects[id]), Dimensions(mid, mid.defects[id].observations));
      InsertsLegal(mid, id, ObligationWrites(mid, id));
      ReplayAppend(db, [fix], ObligationWrites(mid, id));
    }
  }

  // ----------------------------------------------------------- a dispatched retest renews them

  /** The last PASS of the obligation, with no dispatch and no other result after it. */
  lemma {:induction false} LastPass(journal: seq<Write>, key: Id, defect: Id) returns (i: nat)
    requires PassedSinceRetest(journal, key, defect)
    ensures i < |journal| && journal[i] == ResultRecorded(key, Pass)
    ensures forall m :: i < m < |journal| ==>
              journal[m] != RetestStarted(defect) && (journal[m].ResultRecorded? ==> journal[m].key != key)
  {
    var n := |journal| - 1;
    if journal[n].ResultRecorded? && journal[n].key == key {
      i := n;
    } else {
      i := LastPass(journal[..n], key, defect);
      forall m | i < m < |journal|
        ensures journal[m] != RetestStarted(defect) && (journal[m].ResultRecorded? ==> journal[m].key != key)
      {
        if m < n {
          assert journal[m] == journal[..n][m];
        }
      }
    }
  }

  /**
   Once a retest has been dispatched, a defect is closed only on results recorded after that: for
   each of its obligations the last result is a PASS and younger. So after a fix followed by a
   dispatched retest nothing old counts.
   */
  lemma {:induction false} RetestRenews(steps: seq<Step>, id: Id, retest: nat, key: Id)
    requires CloseDefect(Run(steps), id).outcome.Done?
    requires retest < |Journal(steps)| && Journal(steps)[retest] == RetestStarted(id)
    requires key in Run(steps).obligations && Run(steps).obligations[key].defect == id
    ensures exists i :: retest < i < |Journal(steps)| && Journal(steps)[i] == ResultRecorded(key, Pass)
                        && forall m :: i < m < |Journal(steps)| ==> Journal(steps)[m].ResultRecorded? ==>
                        Journal(steps)[m].key != key
  {
    ClosureSound(steps, id);
    RenewedIn(Journal(steps), id, retest, key);
  }

  lemma {:induction false} RenewedIn(journal: seq<Write>, id: Id, retest: nat, key: Id)
    requires PassedSinceRetest(journal, key, id) && retest < |journal| && journal[retest] == RetestStarted(id)
    ensures exists i :: retest < i < |journal| && journal[i] == ResultRecorded(key, Pass)
                        && forall m :: i < m < |journal| ==> journal[m].ResultRecorded? ==> journal[m].key != key
  {
    var i := LastPass(journal, key, id);
  }
}

/** Frozen plans: what later operations may change, what executors may invoke, and what a PASS rests on. */
module MissionPlans {
  import opened Prelude
  import opened ContractMatch
  import opened Mission
  import opened MissionInvariants

  /** Every row of the older state is still there, with the same place and the same definition. */
  ghost predicate Extends(older: Db, newer: Db) {
    && older.version <= newer.version && |older.rows| <= |newer.rows|
    && SameKeys(older.rows, newer.rows[..|older.rows|])
  }

  lemma {:induction false} WriteExtends(db: Db, w: Write)
    ensures Extends(db, Apply(db, w))
  {
  }

  lemma {:induction false} ExtendsTransitive(a: Db, b: Db, c: Db)
    requires Extends(a, b) && Extends(b, c)
    ensures Extends(a, c)
  {
    forall i | 0 <= i < |a.rows|
      ensures a.rows[i].id == c.rows[i].id && a.rows[i].version == c.rows[i].version
      ensures a.rows[i].ordinal == c.rows[i].ordinal && a.rows[i].def == c.rows[i].def
    {
      assert b.rows[..|a.rows|][i] == b.rows[i] && c.rows[..|b.rows|][i] == c.rows[i];
    }
  }

  lemma {:induction false} WritesExtend(db: Db, writes: seq<Write>)
    ensures Extends(db, Replay(db, writes))
  {
    if writes != [] {
      WritesExtend(db, writes[..|writes| - 1]);
      WriteExtends(Replay(db, writes[..|writes| - 1]), writes[|writes| - 1]);
      ExtendsTransitive(db, Replay(db, writes[..|writes| - 1]), Replay(db, writes));
    }
  }

  /**
   No operation, hand-made transitions and crashes included, changes a frozen step's place,
   capability, input or expected value.
   */
  lemma {:induction false} PlansStayFrozen(db: Db, steps: seq<Step>)
    ensures Extends(db, Run(db, steps))
  {
    if steps != [] {
      var front, last := steps[..|steps| - 1], steps[|steps| - 1];
      PlansStayFrozen(db, front);
      WritesExtend(Run(db, front), Take(PlanOf(Run(db, front), last.op).writes, last.survives));
      ExtendsTransitive(db, Run(db, front), Run(db, steps));
    }
  }

  /**
   An accepted plan raises the version by one, keeps all earlier rows as they are and adds its
   steps with ordinals 1 to n, none of them started; the cursor stands on the first.
   */
  lemma {:induction false} AcceptedPlan(db: Db, role: Role, steps: seq<PlanStep>, taken: set<Id>)
    requires RowsKeyed(db) && SubmitPlan(db, role, steps, taken).outcome.Done?
    ensures var r := Replay(db, SubmitPlan(db, role, steps, taken).writes);
      && r.version == db.version + 1
      && |r.rows| == |db.rows| + |steps| && r.rows[..|db.rows|] == db.rows
      && (forall i :: 0 <= i < |r.rows| ==> (r.rows[i].version == r.version <==> i >= |db.rows|))
      && (forall i :: 0 <= i < |steps| ==>
            var row := r.rows[|db.rows| + i];
            row.ordinal == i + 1 && row.def == Frozen(steps[i].def) && row.status.Pending? && row.output.None?)
      && r.cursor == (if steps == [] then None else Some(r.rows[|db.rows|].id))
      && r.state == db.state && db.state in {Planning, WaitingH2, Blocked} && role.Planner?
  {
    ReplayOne(db, PlanFrozen(Numbered(db.mission, steps)));
  }

  /** A refused plan leaves nothing behind, not even part of its rows. */
  lemma {:induction false} RefusedPlan(db: Db, role: Role, steps: seq<PlanStep>, taken: set<Id>)
    requires SubmitPlan(db, role, steps, taken).outcome.Raised?
    ensures Replay(db, SubmitPlan(db, role, steps, taken).writes) == db
  {
  }

  /**
   Replanning without own step ids fails once an earlier plan did the same: the ids are derived
   from the mission and the position only, and the rows of earlier versions are kept. A planner
   who may plan is refused for the clash of ids, and nothing of the plan is left behind.
   */
  lemma {:induction false} DefaultIdsCollide(db: Db, role: Role, steps: seq<PlanStep>, taken: set<Id>, later: seq<Step>,
                                             role2: Role, again: seq<PlanStep>, taken2: set<Id>)
    requires SubmitPlan(db, role, steps, taken).outcome.Done? && steps != [] && steps[0].id.None?
    requires again != [] && again[0].id.None?
    ensures var r := Run(Replay(db, SubmitPlan(db, role, steps, taken).writes), later);
      var plan := SubmitPlan(r, role2, again, taken2);
      && (exists i :: 0 <= i < |r.rows| && r.rows[i].id == Numbered(r.mission, again)[0].0)
      && plan.outcome.Raised? && Replay(r, plan.writes) == r
      && (plan.outcome == Raised(UniqueViolation) <==> role2.Planner? && r.state in {Planning, WaitingH2, Blocked})
  {
    var first := Replay(db, SubmitPlan(db, role, steps, taken).writes);
    ReplayOne(db, PlanFrozen(Numbered(db.mission, steps)));
    var r := Run(first, later);
    PlansStayFrozen(first, later);
    MissionStays(first, later);
    assert first.rows[|db.rows|].id == DefaultStepId(db.mission, 1);
    assert r.rows[..|first.rows|][|db.rows|].id == DefaultStepId(db.mission, 1);
    assert Numbered(r.mission, again)[0].0 == r.rows[|db.rows|].id;
    assert FindRow(r.rows, Numbered(r.mission, again)[0].0).Some?;
    RefusedPlan(r, role2, again, taken2);
  }

  lemma {:induction false} OneKeepsMission(db: Db, w: Write)
    ensures Apply(db, w).mission == db.mission
  {
  }

  lemma {:induction false} WritesKeepMission(db: Db, writes: seq<Write>)
    ensures Replay(db, writes).mission == db.mission
  {
    if writes != [] {
      WritesKeepMission(db, writes[..|writes| - 1]);
      OneKeepsMission(Replay(db, writes[..|writes| - 1]), writes[|writes| - 1]);
    }
  }

  lemma {:induction false} MissionStays(db: Db, steps: seq<Step>)
    ensures Run(db, steps).mission == db.mission
  {
    if steps != [] {
      var front, last := steps[..|steps| - 1], steps[|steps| - 1];
      MissionStays(db, front);
      WritesKeepMission(Run(db, front), Take(PlanOf(Run(db, front), last.op).writes, last.survives));
    }
  }

  // ------------------------------------------------------------------- invocations

  /** The invocation is of the cursor's step and of the capability it names, if it names one. */
  predicate OnCursor(db: Db, row: AuditRow) {
    && db.state.Executing? && CurrentStep(db).Some?
    && (Given(row.step) ==> row.step.value == CurrentStep(db).value.id)
    && (Given(CurrentStep(db).value.def.capability) ==> CurrentStep(db).value.def.capability.value == row.capability)
  }

  predicate ExecutorAllowed(w: Write) {
    w.AuditAppended? && w.row.decision.Allowed? && w.row.role.Executor?
  }

  lemma {:induction false} InvokeOnCursor(db: Db, w: World, role: Role, capability: Id, step: Option<Id>,
      response: Response)
    ensures var writes := InvokePlan(db, w, role, capability, step, response).writes;
      |writes| == 1 && (ExecutorAllowed(writes[0]) ==> OnCursor(db, writes[0].row))
  {
  }

  /** Where the audit row of an execution stands, and that there is no other. */
  lemma {:induction false} RunStepAudits(db: Db, w: World, row: Row, response: Response, taskId: Id)
    ensures var writes := RunStepPlan(db, w, row, response, taskId).writes;
      && (forall i :: 1 <= i < |writes| ==> !writes[i].AuditAppended?)
      && (writes != [] ==>
            && row.def.capability.Some?
            && writes[0] == InvokePlan(db, w, Executor, row.def.capability.value, Some(row.id), response).writes[0])
  {
  }

  lemma {:induction false} ExecuteOnCursor(db: Db, role: Role, w: World, response: Response, taskId: Id, i: nat)
    requires var writes := ExecuteCurrentStep(db, role, w, response, taskId).writes;
      i < |writes| && ExecutorAllowed(writes[i])
    ensures var writes := ExecuteCurrentStep(db, role, w, response, taskId).writes;
      OnCursor(Replay(db, writes[..i]), writes[i].row)
  {
    var writes := ExecuteCurrentStep(db, role, w, response, taskId).writes;
    var row := CurrentStep(db).value;
    var start := StepSet(row.id, Running);
    var started := Apply(db, start);
    RunStepAudits(started, w, row, response, taskId);
    assert writes == [start] + RunStepPlan(started, w, row, response, taskId).writes;
    assert i == 1 && writes[..1] == [start];
    ReplayOne(db, start);
    InvokeOnCursor(started, w, Executor, row.def.capability.value, Some(row.id), response);
  }

  lemma {:induction false} OnlyTheseAudit(db: Db, op: Operation, i: nat)
    requires i < |PlanOf(db, op).writes| && PlanOf(db, op).writes[i].AuditAppended?
    ensures op.OpExecute? || (op.OpInvoke? && i == 0)
  {
  }

  /**
   Every invocation an executor is allowed inside the mission is made while the mission executes,
   on the step under the cursor, with the capability that step froze when it names one.
   */
  lemma {:induction false} AllowedInvocations(db: Db, op: Operation, i: nat)
    requires i < |PlanOf(db, op).writes| && ExecutorAllowed(PlanOf(db, op).writes[i])
    ensures OnCursor(Replay(db, PlanOf(db, op).writes[..i]), PlanOf(db, op).writes[i].row)
  {
    OnlyTheseAudit(db, op, i);
    if op.OpExecute? {
      ExecuteOnCursor(db, op.role, op.world, op.response, op.task, i);
    } else {
      InvokeOnCursor(db, op.world, op.role, op.capability, op.step, op.response);
      assert PlanOf(db, op).writes[..0] == [];
    }
  }

  // --------------------------------------------------------------- what a PASS rests on

  /** The output of every passed step satisfies the contract its plan froze. */
  ghost predicate Matched(db: Db) {
    forall i :: 0 <= i < |db.rows| && db.rows[i].status.Pass? ==> Match(db.rows[i].def.expected, OutputOf(db.rows[i]))
  }

  /** The evaluator does not overrule a failed comparison. */
  predicate Honest(op: Operation) {
    op.OpEvaluate? ==> op.override != Some(VerdictPass)
  }

  predicate Passes(w: Write) {
    w.StepJudged? && w.verdict.VerdictPass?
  }

  lemma {:induction false} NoPassKeepsMatched(db: Db, writes: seq<Write>)
    requires Matched(db) && forall i :: 0 <= i < |writes| ==> !Passes(writes[i])
    requires forall i :: 0 <= i < |writes| && writes[i].StepSet? ==> !writes[i].status.Pass?
    ensures Matched(Replay(db, writes))
  {
    if writes != [] {
      var front := writes[..|writes| - 1];
      NoPassKeepsMatched(db, front);
      OneKeepsMatched(Replay(db, front), writes[|writes| - 1]);
    }
  }

  lemma {:induction false} OneKeepsMatched(db: Db, w: Write)
    requires Matched(db) && !Passes(w) && (w.StepSet? ==> !w.status.Pass?)
    ensures Matched(Apply(db, w))
  {
  }

  lemma {:induction false} HonestPass(db: Db, row: Row, next: Option<Id>)
    requires RowsKeyed(db) && Matched(db) && row in db.rows && Match(row.def.expected, OutputOf(row))
    ensures Matched(Apply(db, StepJudged(row.id, VerdictPass, next)))
  {
    var k :| 0 <= k < |db.rows| && db.rows[k] == row;
    var r := Apply(db, StepJudged(row.id, VerdictPass, next));
    forall i | 0 <= i < |r.rows| && r.rows[i].status.Pass? ensures Match(r.rows[i].def.expected, OutputOf(r.rows[i])) {
      assert db.rows[i].id == row.id ==> i == k;
    }
  }

  lemma {:induction false} RunStepNeverPasses(db: Db, w: World, row: Row, response: Response, taskId: Id, i: nat)
    requires i < |RunStepPlan(db, w, row, response, taskId).writes|
    ensures var write := RunStepPlan(db, w, row, response, taskId).writes[i];
      !Passes(write) && (write.StepSet? ==> !write.status.Pass?)
  {
  }

  lemma {:induction false} TasksNeverPass(db: Db, op: Operation, i: nat)
    requires op.OpCreateTask? || op.OpClaimTask? || op.OpCompleteTask?
    requires i < |PlanOf(db, op).writes|
    ensures var write := PlanOf(db, op).writes[i];
      !Passes(write) && (write.StepSet? ==> !write.status.Pass?)
  {
  }

  lemma {:induction false} OthersNeverPass(db: Db, op: Operation, i: nat)
    requires !op.OpEvaluate? && i < |PlanOf(db, op).writes|
    ensures var write := PlanOf(db, op).writes[i];
      !Passes(write) && (write.StepSet? ==> !write.status.Pass?)
  {
    if op.OpExecute? {
      ExecuteNeverPasses(db, op.role, op.world, op.response, op.task, i);
    } else if op.OpCreateTask? || op.OpClaimTask? || op.OpCompleteTask? {
      TasksNeverPass(db, op, i);
    }
  }

  lemma {:induction false} ExecuteNeverPasses(db: Db, role: Role, w: World, response: Response, taskId: Id, i: nat)
    requires i < |ExecuteCurrentStep(db, role, w, response, taskId).writes|
    ensures var write := ExecuteCurrentStep(db, role, w, response, taskId).writes[i];
      !Passes(write) && (write.StepSet? ==> !write.status.Pass?)
  {
    if i > 0 && CurrentStep(db).Some? {
      var row := CurrentStep(db).value;
      if i - 1 < |RunStepPlan(Apply(db, StepSet(row.id, Running)), w, row, response, taskId).writes| {
        RunStepNeverPasses(Apply(db, StepSet(row.id, Running)), w, row, response, taskId, i - 1);
      }
    }
  }

  lemma {:induction false} EvaluateKeepsMatched(db: Db, role: Role, override: Option<Verdict>, n: nat)
    requires RowsKeyed(db) && Matched(db) && override != Some(VerdictPass)
    ensures Matched(Replay(db, Take(EvaluateCurrentStep(db, role, override).writes, n)))
  {
    var writes := EvaluateCurrentStep(db, role, override).writes;
    if writes != [] && n > 0 {
      assert Take(writes, n) == [writes[0]];
      ReplayOne(db, writes[0]);
      if Passes(writes[0]) {
        HonestPass(db, CurrentStep(db).value, writes[0].next);
      } else {
        OneKeepsMatched(db, writes[0]);
      }
    }
  }

  /**
   Unless an evaluator overrules it, every PASS in every plan version means that the step's
   output satisfies the contract frozen for it, whatever else happened, forced transitions and
   crashes included.
   */
  lemma {:induction false} PassMeansMatched(mission: Id, requirement: bool, release: bool, showcase: bool,
      steps: seq<Step>)
    requires forall step | step in steps :: Honest(step.op)
    ensures Matched(Run(Fresh(mission, requirement, release, showcase), steps))
  {
    if steps != [] {
      var front, last := steps[..|steps| - 1], steps[|steps| - 1];
      assert forall step | step in front :: step in steps;
      assert last in steps;
      PassMeansMatched(mission, requirement, release, showcase, front);
      CursorPrefix(mission, requirement, release, showcase, front);
      StepKeepsMatched(Run(Fresh(mission, requirement, release, showcase), front), last);
    }
  }

  lemma {:induction false} StepKeepsMatched(db: Db, step: Step)
    requires RowsKeyed(db) && Matched(db) && Honest(step.op)
    ensures Matched(After(db, step))
  {
    if step.op.OpEvaluate? {
      EvaluateKeepsMatched(db, step.op.role, step.op.override, step.survives);
    } else {
      var kept := Take(PlanOf(db, step.op).writes, step.survives);
      forall i | 0 <= i < |kept| ensures !Passes(kept[i]) && (kept[i].StepSet? ==> !kept[i].status.Pass?) {
        OthersNeverPass(db, step.op, i);
      }
      NoPassKeepsMatched(db, kept);
    }
  }

  // ------------------------------------------------------------------------- claims

  /** A step that was claimed cannot be claimed a second time, and claiming changes nothing else. */
  lemma {:induction false} ClaimedOnce(db: Db, role: Role)
    requires RowsKeyed(db) && ClaimStep(db, role).writes != []
    ensures var r := Replay(db, ClaimStep(db, role).writes);
      && r == db.(rows := r.rows) && CurrentStep(db).Some?
      && CurrentStep(r) == Some(CurrentStep(db).value.(status := Running))
      && ClaimStep(r, role).outcome == Raised(NotClaimable)
      && |r.rows| == |db.rows|
      && (forall i :: 0 <= i < |db.rows| && db.rows[i].id != CurrentStep(db).value.id ==> r.rows[i] == db.rows[i])
  {
    var row := CurrentStep(db).value;
    ReplayOne(db, StepSet(row.id, Running));
    var r := Apply(db, StepSet(row.id, Running));
    assert SameKeys(db.rows, r.rows);
    var k := FindRowFramed(db.rows, r.rows, row.id);
  }
}

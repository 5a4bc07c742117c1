/** How a mission gets to execute, and exactly when a clean preflight of its plan is behind that. */
module MissionAdmission {
  import opened Prelude
  import opened Mission
  import opened MissionInvariants
  import opened MissionSoundness
  import opened MissionHuman

  // --------------------------------------------------------- how it gets to execute

  /** The commits that can put a mission into EXECUTING or WAITING_H3. */
  predicate Admits(w: Write) {
    match w
    case StateSet(state, _) => state.Executing? || state.WaitingH3?
    case StepJudged(_, verdict, next) => verdict.VerdictPass? && next.Some?
    case PreflightStored(ok, _, _) => ok
    case _ => false
  }

  lemma {:induction false} OneAdmits(db: Db, w: Write)
    requires Apply(db, w).state in {Executing, WaitingH3} && Apply(db, w).state != db.state
    ensures Admits(w)
  {
  }

  predicate SomeAdmits(writes: seq<Write>) {
    exists i :: 0 <= i < |writes| && Admits(writes[i])
  }

  lemma {:induction false} AdmittedBy(db: Db, writes: seq<Write>)
    requires Replay(db, writes).state in {Executing, WaitingH3} && Replay(db, writes).state != db.state
    ensures SomeAdmits(writes)
  {
    var front, last := writes[..|writes| - 1], writes[|writes| - 1];
    if Replay(db, writes).state == Replay(db, front).state {
      AdmittedBy(db, front);
      var i :| 0 <= i < |front| && Admits(front[i]);
      assert writes[i] == front[i];
    } else {
      OneAdmits(Replay(db, front), last);
    }
  }

  lemma {:induction false} RunStepNeverAdmits(db: Db, w: World, row: Row, response: Response, taskId: Id)
    ensures !SomeAdmits(RunStepPlan(db, w, row, response, taskId).writes)
  {
  }

  lemma {:induction false} ExecuteNeverAdmits(db: Db, role: Role, w: World, response: Response, taskId: Id)
    ensures !SomeAdmits(ExecuteCurrentStep(db, role, w, response, taskId).writes)
  {
    if CurrentStep(db).Some? {
      var row := CurrentStep(db).value;
      RunStepNeverAdmits(Apply(db, StepSet(row.id, Running)), w, row, response, taskId);
    }
  }

  lemma {:induction false} AdmittingOperations(db: Db, op: Operation)
    requires Sound(db) && Driven(op) && !op.OpExecute? && SomeAdmits(PlanOf(db, op).writes)
    ensures op.OpAuthorize? || op.OpEvaluate? || op.OpCompleteTask? || op.OpPreflight?
  {
  }

  /** A step that changes the state into one of the two is one of these operations. */
  lemma {:induction false} AdmittingSteps(db: Db, step: Step)
    requires Sound(db) && Driven(step.op)
    requires After(db, step).state in {Executing, WaitingH3} && After(db, step).state != db.state
    ensures step.op.OpAuthorize? || step.op.OpEvaluate? || step.op.OpCompleteTask? || step.op.OpPreflight?
  {
    var kept := Take(PlanOf(db, step.op).writes, step.survives);
    AdmittedBy(db, kept);
    var i :| 0 <= i < |kept| && Admits(kept[i]);
    assert PlanOf(db, step.op).writes[i] == kept[i];
    if step.op.OpExecute? {
      ExecuteNeverAdmits(db, step.op.role, step.op.world, step.op.response, step.op.task);
    } else {
      AdmittingOperations(db, step.op);
    }
  }

  /** An approving H3 decision, in a state the table lets into EXECUTING, that got past its gate. */
  predicate Authorizes(db: Db, step: Step) {
    && step.op.OpAuthorize? && step.op.decision in {Approve, AcceptRisk} && step.survives > 1
    && Executing in AllowedTransitions(db.state)
  }

  /** The evaluation of a step that passes and has a successor. */
  predicate Advances(db: Db, step: Step) {
    && step.op.OpEvaluate? && step.op.role.Evaluator? && step.survives > 0 && db.state.Verifying?
    && CurrentStep(db).Some? && VerdictOf(CurrentStep(db).value, step.op.override).VerdictPass?
    && NextRow(db.rows, CurrentStep(db).value.version, CurrentStep(db).value.ordinal).Some?
  }

  /** What survives of an H3 decision: nothing, the gate, or the gate and the move. */
  lemma {:induction false} AuthorizeWrites(db: Db, step: Step)
    requires step.op.OpAuthorize?
    ensures var gate := GateSet(H3, ReviewedGate(step.op.decision));
      var kept := Take(PlanOf(db, step.op).writes, step.survives);
      if Authorizes(db, step) then kept == [gate] + [StateSet(Executing, kept[1].resume)]
      else kept == [] || kept == [gate]
  {
  }

  lemma {:induction false} MoveEnters(db: Db, gate: Gate, resume: Option<MissionState>)
    ensures Replay(db, [GateSet(H3, gate)]).state == db.state
    ensures Replay(db, [GateSet(H3, gate)] + [StateSet(Executing, resume)]).state.Executing?
  {
    ReplayOne(db, GateSet(H3, gate));
    ReplayCons(db, GateSet(H3, gate), [StateSet(Executing, resume)]);
    ReplayOne(Apply(db, GateSet(H3, gate)), StateSet(Executing, resume));
  }

  lemma {:induction false} AuthorizeEnters(db: Db, step: Step)
    requires step.op.OpAuthorize?
    ensures if Authorizes(db, step) then After(db, step).state.Executing? else After(db, step).state == db.state
    ensures !db.state.Executing? ==> (After(db, step).state.Executing? <==> Authorizes(db, step))
    ensures !After(db, step).state.WaitingH3? || db.state.WaitingH3?
  {
    AuthorizeWrites(db, step);
    var kept := Take(PlanOf(db, step.op).writes, step.survives);
    MoveEnters(db, ReviewedGate(step.op.decision), if Authorizes(db, step) then kept[1].resume else None);
  }

  lemma {:induction false} JudgedEnters(db: Db, row: Row, verdict: Verdict, next: Option<Id>)
    ensures Apply(db, StepJudged(row.id, verdict, next)).state.Executing? <==> verdict.VerdictPass? && next.Some?
    ensures !Apply(db, StepJudged(row.id, verdict, next)).state.WaitingH3?
  {
  }

  lemma {:induction false} EvaluateEnters(db: Db, step: Step)
    requires step.op.OpEvaluate?
    ensures !db.state.Executing? ==> (After(db, step).state.Executing? <==> Advances(db, step))
    ensures !After(db, step).state.WaitingH3? || db.state.WaitingH3?
  {
    var writes := EvaluateCurrentStep(db, step.op.role, step.op.override).writes;
    if writes != [] && step.survives > 0 {
      assert Take(writes, step.survives) == [writes[0]];
      ReplayOne(db, writes[0]);
      if CurrentStep(db).Some? {
        JudgedEnters(db, CurrentStep(db).value, writes[0].verdict, writes[0].next);
      }
    }
  }

  lemma {:induction false} PreflightEnters(db: Db, step: Step)
    requires step.op.OpPreflight?
    ensures After(db, step).state.Executing? ==> db.state.Executing?
    ensures !db.state.WaitingH3? ==> (After(db, step).state.WaitingH3? <==>
        PreflightOk(db, step.op.world) && step.survives > 0)
  {
    ReplayOne(db, EvaluatePreflight(db, step.op.environment, step.op.world).writes[0]);
  }

  predicate SetsWaiting(w: Write) {
    (w.StateSet? && w.state.WaitingH3?) || (w.PreflightStored? && w.ok)
  }

  lemma {:induction false} OneNeverWaits(db: Db, w: Write)
    requires !db.state.WaitingH3? && !SetsWaiting(w)
    ensures !Apply(db, w).state.WaitingH3?
  {
  }

  lemma {:induction false} NeverWaits(db: Db, writes: seq<Write>)
    requires !db.state.WaitingH3? && forall i :: 0 <= i < |writes| ==> !SetsWaiting(writes[i])
    ensures !Replay(db, writes).state.WaitingH3?
  {
    if writes != [] {
      NeverWaits(db, writes[..|writes| - 1]);
      OneNeverWaits(Replay(db, writes[..|writes| - 1]), writes[|writes| - 1]);
    }
  }

  lemma {:induction false} CompleteNeverWaits(db: Db, step: Step)
    requires Sound(db) && step.op.OpCompleteTask? && !db.state.WaitingH3?
    ensures !After(db, step).state.WaitingH3?
  {
    NeverWaits(db, Take(CompleteTask(db, step.op.id, step.op.user).writes, step.survives));
  }

  /** Without hand-made transitions a mission comes to wait for H3 exactly by a stored preflight without a blocker. */
  lemma {:induction false} WaitsForH3OnlyBy(db: Db, step: Step)
    requires Sound(db) && Driven(step.op) && !db.state.WaitingH3?
    ensures After(db, step).state.WaitingH3? <==>
            step.op.OpPreflight? && PreflightOk(db, step.op.world) && step.survives > 0
  {
    if After(db, step).state.WaitingH3? {
      AdmittingSteps(db, step);
    }
    match step.op
    case OpAuthorize(_) => AuthorizeEnters(db, step);
    case OpEvaluate(_, _) => EvaluateEnters(db, step);
    case OpPreflight(_, _) => PreflightEnters(db, step);
    case OpCompleteTask(_, _) => CompleteNeverWaits(db, step);
    case _ =>
  }

  lemma {:induction false} CompletionKeeps(db: Db, id: Id, user: Id, i: nat)
    requires i < |CompleteTask(db, id, user).writes|
    requires i < |CompleteTask(db, id, user).writes| - 1 || !db.state.WaitingHuman?
    ensures KeepsState(CompleteTask(db, id, user).writes[i])
  {
  }

  /** The last open task of a suspended mission that was executing, completed to the end. */
  predicate Resumes(db: Db, step: Step) {
    && step.op.OpCompleteTask? && CompleteTask(db, step.op.id, step.op.user).outcome.Done?
    && db.state.WaitingHuman? && OnlyOpen(db, step.op.id) && db.tasks[step.op.id].resume.Executing?
    && step.survives >= |CompleteTask(db, step.op.id, step.op.user).writes|
  }

  lemma {:induction false} CompleteEnters(db: Db, step: Step)
    requires Sound(db) && step.op.OpCompleteTask? && !db.state.Executing?
    ensures After(db, step).state.Executing? <==> Resumes(db, step)
  {
    var writes := CompleteTask(db, step.op.id, step.op.user).writes;
    var kept := Take(writes, step.survives);
    if writes != [] && db.state.WaitingHuman? && step.survives >= |writes| {
      CompletionNeverRejected(db, step.op.id, step.op.user);
      CompletingResumes(db, step.op.id, step.op.user);
    } else {
      forall i | 0 <= i < |kept| ensures KeepsState(kept[i]) {
        CompletionKeeps(db, step.op.id, step.op.user, i);
      }
      KeepStates(db, kept);
    }
  }

  /**
   Without hand-made transitions a mission starts to execute exactly by an approving H3 decision
   in a state the table lets into EXECUTING, by a step that passed with another to follow, or by
   the completion of the last human task it was suspended for.
   */
  lemma {:induction false} ExecutesOnlyBy(db: Db, step: Step)
    requires Sound(db) && Driven(step.op) && !db.state.Executing?
    ensures After(db, step).state.Executing? <==> Authorizes(db, step) || Advances(db, step) || Resumes(db, step)
  {
    if After(db, step).state.Executing? {
      AdmittingSteps(db, step);
    }
    match step.op
    case OpAuthorize(_) => AuthorizeEnters(db, step);
    case OpEvaluate(_, _) => EvaluateEnters(db, step);
    case OpPreflight(_, _) => PreflightEnters(db, step);
    case OpCompleteTask(_, _) => CompleteEnters(db, step);
    case _ =>
  }

  // ----------------------------------------------------------- executing and preflight

  /** Whether the current plan has a stored preflight, and the last one had no blocker. */
  function Clear(cleared: bool, w: Write): (r: bool) {
    match w
    case PreflightStored(ok, _, _) => ok
    case PlanFrozen(_) => false
    case _ => cleared
  }

  function ClearAll(cleared: bool, writes: seq<Write>): (r: bool) {
    if writes == [] then cleared else Clear(ClearAll(cleared, writes[..|writes| - 1]), writes[|writes| - 1])
  }

  function ClearedAfter(db: Db, steps: seq<Step>): (r: bool) {
    if steps == [] then false
    else
      var front, last := steps[..|steps| - 1], steps[|steps| - 1];
      ClearAll(ClearedAfter(db, front), Take(PlanOf(Run(db, front), last.op).writes, last.survives))
  }

  /** Under way means cleared. */
  predicate Admitted(db: Db, cleared: bool) {
    db.state in {WaitingH3, Executing, Verifying, WaitingHuman} ==> cleared
  }

  /** The move the table allows from BLOCKED, while no clean preflight of the plan is on record. */
  predicate Forces(db: Db, cleared: bool, w: Write) {
    w.StateSet? && w.state.Executing? && db.state.Blocked? && !cleared
  }

  lemma {:induction false} WriteAdmitted(db: Db, cleared: bool, w: Write)
    requires Disciplined(db, w) && Admitted(db, cleared)
    ensures Admitted(Apply(db, w), Clear(cleared, w)) <==> !Forces(db, cleared, w)
  {
  }

  lemma {:induction false} WritesAdmitted(db: Db, cleared: bool, writes: seq<Write>)
    requires AllDisciplined(db, writes) && Admitted(db, cleared)
    requires forall i :: 0 <= i < |writes| ==> !(writes[i].StateSet? && writes[i].state.Executing?)
    ensures Admitted(Replay(db, writes), ClearAll(cleared, writes))
  {
    if writes != [] {
      WritesAdmitted(db, cleared, writes[..|writes| - 1]);
      WriteAdmitted(Replay(db, writes[..|writes| - 1]), ClearAll(cleared, writes[..|writes| - 1]),
        writes[|writes| - 1]);
    }
  }

  /** An approving H3 decision on a blocked mission whose plan has no clean preflight. */
  predicate Bypasses(db: Db, cleared: bool, step: Step) {
    Authorizes(db, step) && db.state.Blocked? && !cleared
  }
  /** Commits that say nothing about the preflight. */
  predicate Neutral(w: Write) {
    !w.PreflightStored? && !w.PlanFrozen?
  }

  lemma {:induction false} ClearStays(cleared: bool, writes: seq<Write>)
    requires forall i :: 0 <= i < |writes| ==> Neutral(writes[i])
    ensures ClearAll(cleared, writes) == cleared
  {
    if writes != [] {
      ClearStays(cleared, writes[..|writes| - 1]);
    }
  }

  lemma {:induction false} AuthorizeAdmitted(db: Db, cleared: bool, step: Step)
    requires step.op.OpAuthorize? && Admitted(db, cleared)
    ensures Admitted(After(db, step), ClearAll(cleared, Take(PlanOf(db, step.op).writes, step.survives))) <==>
            !Bypasses(db, cleared, step)
  {
    AuthorizeWrites(db, step);
    ClearStays(cleared, Take(PlanOf(db, step.op).writes, step.survives));
    AuthorizeEnters(db, step);
  }

  lemma {:induction false} CompleteAdmitted(db: Db, cleared: bool, step: Step)
    requires Sound(db) && step.op.OpCompleteTask? && Admitted(db, cleared)
    ensures Admitted(After(db, step), ClearAll(cleared, Take(PlanOf(db, step.op).writes, step.survives)))
  {
    var kept := Take(CompleteTask(db, step.op.id, step.op.user).writes, step.survives);
    ClearStays(cleared, kept);
    if !db.state.WaitingHuman? {
      forall i | 0 <= i < |kept| ensures KeepsState(kept[i]) {
        CompletionKeeps(db, step.op.id, step.op.user, i);
      }
      KeepStates(db, kept);
    }
  }

  lemma {:induction false} OthersNeverExecute(db: Db, op: Operation, i: nat)
    requires Sound(db) && Driven(op) && !op.OpAuthorize? && !op.OpCompleteTask? && i < |PlanOf(db, op).writes|
    ensures !(PlanOf(db, op).writes[i].StateSet? && PlanOf(db, op).writes[i].state.Executing?)
  {
    if op.OpExecute? {
      ExecuteNeverAdmits(db, op.role, op.world, op.response, op.task);
      assert !Admits(PlanOf(db, op).writes[i]);
    }
  }

  /**
   Being under way and having a clean preflight of the current plan go together over every step,
   crashed or not, except one: an approving H3 decision on a blocked mission without one.
   */
  lemma {:induction false} StepAdmitted(db: Db, cleared: bool, step: Step)
    requires Sound(db) && Driven(step.op) && Admitted(db, cleared)
    ensures Admitted(After(db, step), ClearAll(cleared, Take(PlanOf(db, step.op).writes, step.survives))) <==>
            !Bypasses(db, cleared, step)
  {
    if step.op.OpAuthorize? {
      AuthorizeAdmitted(db, cleared, step);
    } else if step.op.OpCompleteTask? {
      CompleteAdmitted(db, cleared, step);
    } else {
      var kept := Take(PlanOf(db, step.op).writes, step.survives);
      forall i | 0 <= i < |kept| ensures !(kept[i].StateSet? && kept[i].state.Executing?) {
        OthersNeverExecute(db, step.op, i);
        assert kept[i] == PlanOf(db, step.op).writes[i];
      }
      KeptDisciplined(db, step);
      WritesAdmitted(db, cleared, kept);
    }
  }

  lemma {:induction false} KeptDisciplined(db: Db, step: Step)
    requires Sound(db) && Driven(step.op)
    ensures AllDisciplined(db, Take(PlanOf(db, step.op).writes, step.survives))
  {
    PlanDisciplined(db, step.op);
    if step.survives < |PlanOf(db, step.op).writes| {
      DisciplinedPrefix(db, PlanOf(db, step.op).writes, step.survives);
    }
  }

  /** No step of the run bypassed the preflight. */
  predicate NoBypass(db: Db, steps: seq<Step>) {
    steps == [] ||
    var front, last := steps[..|steps| - 1], steps[|steps| - 1];
    NoBypass(db, front) && !Bypasses(Run(db, front), ClearedAfter(db, front), last)
  }

  /** At no point of the run was the mission under way without a clean preflight of its plan. */
  predicate AlwaysAdmitted(db: Db, steps: seq<Step>) {
    && (steps == [] || AlwaysAdmitted(db, steps[..|steps| - 1]))
    && Admitted(Run(db, steps), ClearedAfter(db, steps))
  }

  /**
   In every run without hand-made transitions, crashes included, waiting for H3, executing,
   verifying and waiting for a human imply a preflight of the current plan without a blocker,
   exactly when no H3 decision approved a blocked mission that lacked one.
   */
  lemma {:induction false} AdmittedIffNoBypass(mission: Id, requirement: bool, release: bool, showcase: bool,
      steps: seq<Step>)
    requires forall step | step in steps :: Driven(step.op)
    ensures var db := Fresh(mission, requirement, release, showcase); AlwaysAdmitted(db, steps) <==> NoBypass(db, steps)
  {
    if steps != [] {
      var front, last := steps[..|steps| - 1], steps[|steps| - 1];
      assert forall step | step in front :: step in steps;
      assert last in steps;
      AdmittedIffNoBypass(mission, requirement, release, showcase, front);
      RunSound(mission, requirement, release, showcase, front);
      var db := Fresh(mission, requirement, release, showcase);
      if AlwaysAdmitted(db, front) {
        AdmittedNow(db, front);
        StepAdmitted(Run(db, front), ClearedAfter(db, front), last);
      }
    }
  }

  lemma {:induction false} AdmittedNow(db: Db, steps: seq<Step>)
    requires AlwaysAdmitted(db, steps)
    ensures Admitted(Run(db, steps), ClearedAfter(db, steps))
  {
  }

  /** A failing preflight and an approving decision, in this order. */
  function Bypass(environment: Id, w: World): (steps: seq<Step>) {
    [Step(OpPreflight(environment, w), 1), Step(OpAuthorize(Approve), 2)]
  }

  lemma {:induction false} RunPair(db: Db, a: Step, b: Step)
    ensures Run(db, [a, b]) == After(After(db, a), b)
    ensures ClearedAfter(db, [a, b]) ==
            ClearAll(ClearAll(false, Take(PlanOf(db, a.op).writes, a.survives)),
              Take(PlanOf(After(db, a), b.op).writes, b.survives))
  {
    assert [a, b][..1] == [a] && [a][..0] == [];
    assert Run(db, []) == db && !ClearedAfter(db, []);
    assert Run(db, [a]) == After(db, a);
  }

  lemma {:induction false} FailedPreflight(db: Db, environment: Id, w: World)
    requires !PreflightOk(db, w)
    ensures var step := Step(OpPreflight(environment, w), 1);
      After(db, step).state.Blocked? && !ClearAll(false, Take(PlanOf(db, step.op).writes, 1))
  {
    var stored := EvaluatePreflight(db, environment, w).writes[0];
    assert Take(EvaluatePreflight(db, environment, w).writes, 1) == [stored] && [stored][..0] == [];
    ReplayOne(db, stored);
  }

  lemma {:induction false} ForcedIn(db: Db)
    requires db.state.Blocked?
    ensures var step := Step(OpAuthorize(Approve), 2);
      After(db, step).state.Executing? && !ClearAll(false, Take(PlanOf(db, step.op).writes, 2))
  {
    var step := Step(OpAuthorize(Approve), 2);
    AuthorizeWrites(db, step);
    AuthorizeEnters(db, step);
    ClearStays(false, Take(PlanOf(db, step.op).writes, 2));
  }

  /**
   The bypass is reachable at once: whatever blocks the preflight of a new mission, an approving
   H3 decision puts it into EXECUTING.
   */
  lemma {:induction false} BypassRun(mission: Id, requirement: bool, release: bool, showcase: bool, environment: Id,
      w: World)
    requires !PreflightOk(Fresh(mission, requirement, release, showcase), w)
    ensures var db := Fresh(mission, requirement, release, showcase);
      Run(db, Bypass(environment, w)).state.Executing? && !ClearedAfter(db, Bypass(environment, w))
  {
    var db, first := Fresh(mission, requirement, release, showcase), Step(OpPreflight(environment, w), 1);
    FailedPreflight(db, environment, w);
    ForcedIn(After(db, first));
    RunPair(db, first, Step(OpAuthorize(Approve), 2));
  }
}

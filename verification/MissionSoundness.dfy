/** What WAITING_H4 and COMPLETED mean when nobody moves the mission by hand. */
module MissionSoundness {
  import opened Prelude
  import opened Mission
  import opened MissionInvariants

  /** No hand-made transition. */
  predicate Driven(op: Operation) {
    !op.OpTransition?
  }

  /** A suspended mission was executing; a task can only send it back to executing or verifying. */
  ghost predicate Sound(db: Db) {
    && (db.state.WaitingH4? || db.state.Completed? ==> db.cursor.None?)
    && db.resume in {None, Some(Executing)} && (db.state.WaitingHuman? ==> db.resume == Some(Executing))
    && (forall id | id in db.tasks :: db.tasks[id].resume in {Executing, Verifying})
  }

  /** The moves of the table that driven operations ask for; back to verifying only after a suspension. */
  predicate Moves(from: MissionState, to: MissionState) {
    && to in AllowedTransitions(from) && to in {Executing, WaitingHuman, Verifying, WaitingH4, Completed, Blocked}
    && (to.Verifying? ==> from.WaitingHuman?)
  }

  /** The guard under which a driven operation makes each commit. */
  ghost predicate Disciplined(db: Db, w: Write) {
    match w
    case StateSet(state, resume) =>
      && (state.WaitingH4? ==> CurrentStep(db).None?)
      && (state.Completed? ==> db.state.WaitingH4?)
      && resume in {None, Some(Executing)}
      && (state.Planning? || Moves(db.state, state))
      && (state.WaitingHuman? ==> AnyOpen(db) && resume == Some(Executing))
    case PlanFrozen(_) => db.state in {Planning, WaitingH2, Blocked}
    case StepOutput(_, _) => db.state.Executing?
    case StepJudged(_, _, _) => db.state.Verifying?
    case TaskSet(_, task) => task.resume in {Executing, Verifying}
    case _ => true
  }

  ghost predicate AllDisciplined(db: Db, writes: seq<Write>) {
    writes == [] ||
    (AllDisciplined(db, writes[..|writes| - 1])
      && Disciplined(Replay(db, writes[..|writes| - 1]), writes[|writes| - 1]))
  }

  lemma {:induction false} DisciplinedAppend(db: Db, first: seq<Write>, second: seq<Write>)
    ensures AllDisciplined(db, first + second) <==>
        AllDisciplined(db, first) && AllDisciplined(Replay(db, first), second)
    ensures Replay(db, first + second) == Replay(Replay(db, first), second)
  {
    ReplayAppend(db, first, second);
    if second == [] {
      assert first + second == first;
    } else {
      var front := second[..|second| - 1];
      DisciplinedAppend(db, first, front);
      assert (first + second)[..|first + second| - 1] == first + front;
    }
  }

  lemma {:induction false} DisciplinedOne(db: Db, w: Write)
    ensures AllDisciplined(db, [w]) <==> Disciplined(db, w)
    ensures Replay(db, [w]) == Apply(db, w)
  {
    ReplayOne(db, w);
    assert [w][..0] == [];
    assert Replay(db, []) == db;
  }

  lemma {:induction false} DisciplinedCons(db: Db, w: Write, rest: seq<Write>)
    ensures AllDisciplined(db, [w] + rest) <==> Disciplined(db, w) && AllDisciplined(Apply(db, w), rest)
    ensures Replay(db, [w] + rest) == Replay(Apply(db, w), rest)
  {
    DisciplinedAppend(db, [w], rest);
    DisciplinedOne(db, w);
  }

  lemma {:induction false} DisciplinedPrefix(db: Db, writes: seq<Write>, k: nat)
    requires AllDisciplined(db, writes) && k <= |writes|
    ensures AllDisciplined(db, writes[..k])
  {
    assert writes[..k] + writes[k..] == writes;
    DisciplinedAppend(db, writes[..k], writes[k..]);
  }

  lemma {:induction false} WriteKeepsSound(db: Db, w: Write)
    requires Consistent(db) && Sound(db) && Disciplined(db, w)
    ensures Sound(Apply(db, w))
  {
  }

  lemma {:induction false} WritesKeepSound(db: Db, writes: seq<Write>)
    requires Consistent(db) && Sound(db) && AllDisciplined(db, writes) && AllLegal(db, writes)
    ensures Sound(Replay(db, writes))
  {
    if writes != [] {
      var front := writes[..|writes| - 1];
      WritesKeepSound(db, front);
      WritesKeepConsistent(db, front);
      WriteKeepsSound(Replay(db, front), writes[|writes| - 1]);
    }
  }

  // ------------------------------------------------------------ plans are disciplined

  lemma {:induction false} MoveDisciplined(db: Db, to: MissionState)
    requires db.resume in {None, Some(Executing)}
    requires to.WaitingH4? ==> CurrentStep(db).None?
    requires to in {Executing, WaitingHuman, Verifying, WaitingH4, Completed, Blocked}
    requires (to.Verifying? ==> db.state.WaitingHuman?) && (to.WaitingHuman? ==> AnyOpen(db))
    ensures AllDisciplined(db, MovePlan(db, to, false).writes)
  {
    if MovePlan(db, to, false).writes != [] {
      DisciplinedOne(db, MovePlan(db, to, false).writes[0]);
    }
  }

  lemma {:induction false} GatedMoveDisciplined(db: Db, gate: GateType, value: Gate, to: MissionState)
    requires db.resume in {None, Some(Executing)} && to in {Executing, Completed, Blocked}
    ensures AllDisciplined(db, [GateSet(gate, value)] + MovePlan(Apply(db, GateSet(gate, value)), to, false).writes)
  {
    MoveDisciplined(Apply(db, GateSet(gate, value)), to);
    DisciplinedCons(db, GateSet(gate, value), MovePlan(Apply(db, GateSet(gate, value)), to, false).writes);
  }

  lemma {:induction false} CreateTaskDisciplined(db: Db, id: Id, validType: bool, step: Option<Id>,
      assignee: Option<Id>)
    requires db.resume in {None, Some(Executing)}
    ensures AllDisciplined(db, CreateTask(db, id, validType, step, assignee).writes)
  {
    var writes := CreateTask(db, id, validType, step, assignee).writes;
    if writes != [] {
      DisciplinedOne(db, writes[0]);
      InsertDisciplined(db, id, writes[0].task);
    }
  }

  lemma {:induction false} InsertDisciplined(db: Db, id: Id, task: HumanTask)
    requires db.resume in {None, Some(Executing)} && task.resume in {Executing, Verifying} && OpenTask(task)
    ensures AllDisciplined(db, [TaskSet(id, task)] + MovePlan(Apply(db, TaskSet(id, task)), WaitingHuman, false).writes)
  {
    assert id in Apply(db, TaskSet(id, task)).tasks;
    MoveDisciplined(Apply(db, TaskSet(id, task)), WaitingHuman);
    DisciplinedCons(db, TaskSet(id, task), MovePlan(Apply(db, TaskSet(id, task)), WaitingHuman, false).writes);
  }

  lemma {:induction false} ParkDisciplined(db: Db, row: Row, taskId: Id)
    requires db.resume in {None, Some(Executing)}
    ensures AllDisciplined(db, ParkPlan(db, row, taskId).writes)
  {
    CreateTaskDisciplined(db, taskId, true, Some(row.id), None);
    var task := CreateTask(db, taskId, true, Some(row.id), None);
    DisciplinedAppend(db, task.writes, [StepSet(row.id, StepWaiting)]);
    DisciplinedOne(Replay(db, task.writes), StepSet(row.id, StepWaiting));
  }

  /** After the audit row: the output of a step, or its parking. */
  lemma {:induction false} AuditedThen(db: Db, audit: seq<Write>, row: Row, taskId: Id, response: Response)
    requires AllDisciplined(db, audit) && Replay(db, audit).resume in {None, Some(Executing)}
        && Replay(db, audit).state.Executing?
    ensures AllDisciplined(db, audit + ParkPlan(Replay(db, audit), row, taskId).writes)
    ensures row.def.capability.Some? && response.Returned? ==>
      AllDisciplined(db, audit + [StepOutput(row.id, InvocationResult(row.def.capability.value, response.value))])
  {
    var mid := Replay(db, audit);
    ParkDisciplined(mid, row, taskId);
    DisciplinedAppend(db, audit, ParkPlan(mid, row, taskId).writes);
    if row.def.capability.Some? && response.Returned? {
      var write := StepOutput(row.id, InvocationResult(row.def.capability.value, response.value));
      DisciplinedAppend(db, audit, [write]);
      DisciplinedOne(mid, write);
    }
  }

  lemma {:induction false} RunStepDisciplined(db: Db, w: World, row: Row, response: Response, taskId: Id)
    requires db.resume in {None, Some(Executing)} && db.state.Executing?
    ensures AllDisciplined(db, RunStepPlan(db, w, row, response, taskId).writes)
  {
    if row.def.capability.Some? {
      var invoke := InvokePlan(db, w, Executor, row.def.capability.value, Some(row.id), response);
      InvokeLegal(db, w, Executor, row.def.capability.value, Some(row.id), response);
      DisciplinedOne(db, invoke.writes[0]);
      AuditedThen(db, invoke.writes, row, taskId, response);
    }
  }

  lemma {:induction false} StartedDisciplined(db: Db, w: World, row: Row, response: Response, taskId: Id)
    requires db.resume in {None, Some(Executing)} && db.state.Executing?
    ensures var start := StepSet(row.id, Running);
      AllDisciplined(db, [start] + RunStepPlan(Apply(db, start), w, row, response, taskId).writes)
  {
    var start := StepSet(row.id, Running);
    RunStepDisciplined(Apply(db, start), w, row, response, taskId);
    DisciplinedCons(db, start, RunStepPlan(Apply(db, start), w, row, response, taskId).writes);
  }

  lemma {:induction false} ExecuteDisciplined(db: Db, role: Role, w: World, response: Response, taskId: Id)
    requires db.resume in {None, Some(Executing)}
    ensures AllDisciplined(db, ExecuteCurrentStep(db, role, w, response, taskId).writes)
  {
    if role.Executor? && db.state.Executing? {
      if BaselineChanged(db, w) {
        var block := GateSet(H3, Gate(false, Some(Rework)));
        DisciplinedCons(db, block, [StateSet(Blocked, db.resume)]);
        DisciplinedOne(Apply(db, block), StateSet(Blocked, db.resume));
        assert [block] + [StateSet(Blocked, db.resume)] == [block, StateSet(Blocked, db.resume)];
      } else if CurrentStep(db).None? {
        MoveDisciplined(db, WaitingH4);
      } else {
        StartedDisciplined(db, w, CurrentStep(db).value, response, taskId);
      }
    }
  }

  lemma {:induction false} EvaluateDisciplined(db: Db, role: Role, override: Option<Verdict>)
    requires db.resume in {None, Some(Executing)}
    ensures AllDisciplined(db, EvaluateCurrentStep(db, role, override).writes)
  {
    var writes := EvaluateCurrentStep(db, role, override).writes;
    if writes != [] {
      if CurrentStep(db).None? {
        MoveDisciplined(db, WaitingH4);
      } else {
        DisciplinedOne(db, writes[0]);
      }
    }
  }

  lemma {:induction false} ResumeDisciplined(db: Db, task: HumanTask)
    requires db.resume in {None, Some(Executing)} && task.resume in {Executing, Verifying}
    ensures AllDisciplined(db, ResumePlan(db, task).writes)
  {
    var ready := ReadyWrites(db, task);
    if ready != [] {
      DisciplinedOne(db, ready[0]);
    }
    if db.state.WaitingHuman? {
      MoveDisciplined(Replay(db, ready), task.resume);
      DisciplinedAppend(db, ready, MovePlan(Replay(db, ready), task.resume, false).writes);
    }
  }

  lemma {:induction false} CompleteTaskDisciplined(db: Db, id: Id, user: Id)
    requires Sound(db)
    ensures AllDisciplined(db, CompleteTask(db, id, user).writes)
  {
    var writes := CompleteTask(db, id, user).writes;
    if writes != [] {
      ResumeDisciplined(Apply(db, writes[0]), db.tasks[id]);
      DisciplinedCons(db, writes[0], ResumePlan(Apply(db, writes[0]), db.tasks[id]).writes);
    }
  }

  lemma {:induction false} SingleDisciplined(db: Db, op: Operation)
    requires Sound(db)
    requires op.OpSubmitPlan? || op.OpRequestReplan? || op.OpClaimStep? || op.OpPreflight? || op.OpSetGate?
        || op.OpClaimTask? || op.OpInvoke?
    ensures AllDisciplined(db, PlanOf(db, op).writes)
  {
    var writes := PlanOf(db, op).writes;
    if writes != [] {
      assert writes == [writes[0]];
      DisciplinedOne(db, writes[0]);
    }
  }

  lemma {:induction false} PlanDisciplined(db: Db, op: Operation)
    requires Sound(db) && Driven(op)
    ensures AllDisciplined(db, PlanOf(db, op).writes)
  {
    match op
    case OpAuthorize(decision) =>
      DisciplinedOne(db, GateSet(H3, ReviewedGate(decision)));
      GatedMoveDisciplined(db, H3, ReviewedGate(decision), Executing);
    case OpExecute(role, world, response, task) => ExecuteDisciplined(db, role, world, response, task);
    case OpEvaluate(role, override) => EvaluateDisciplined(db, role, override);
    case OpFinalize(decision) =>
      GatedMoveDisciplined(db, H4, ReviewedGate(decision), if ReviewedGate(decision).passed then Completed
        else Blocked);
    case OpCreateTask(id, validType, step, assignee) => CreateTaskDisciplined(db, id, validType, step, assignee);
    case OpCompleteTask(id, user) => CompleteTaskDisciplined(db, id, user);
    case _ => SingleDisciplined(db, op);
  }

  lemma {:induction false} StepKeepsSound(db: Db, step: Step)
    requires Consistent(db) && Sound(db) && Driven(step.op)
    ensures Sound(After(db, step))
  {
    var writes := PlanOf(db, step.op).writes;
    PlanLegal(db, step.op);
    PlanDisciplined(db, step.op);
    if step.survives < |writes| {
      LegalPrefix(db, writes, step.survives);
      DisciplinedPrefix(db, writes, step.survives);
    }
    WritesKeepSound(db, Take(writes, step.survives));
  }

  lemma {:induction false} RunSound(mission: Id, requirement: bool, release: bool, showcase: bool, steps: seq<Step>)
    requires forall step | step in steps :: Driven(step.op)
    ensures Sound(Run(Fresh(mission, requirement, release, showcase), steps))
  {
    if steps != [] {
      var front, last := steps[..|steps| - 1], steps[|steps| - 1];
      assert forall step | step in front :: step in steps;
      assert last in steps;
      RunSound(mission, requirement, release, showcase, front);
      CursorPrefix(mission, requirement, release, showcase, front);
      StepKeepsSound(Run(Fresh(mission, requirement, release, showcase), front), last);
    }
  }

  /**
   Completion soundness. In a run without hand-made transitions, crashes included, a mission
   that waits for H4 or is completed has no cursor, and every step of its current plan is PASS.
   */
  lemma {:induction false} CompletionSound(
      mission: Id, requirement: bool, release: bool, showcase: bool, steps: seq<Step>, i: nat)
    requires forall step | step in steps :: Driven(step.op)
    ensures var db := Run(Fresh(mission, requirement, release, showcase), steps);
      db.state.WaitingH4? || db.state.Completed? ==>
        && db.cursor.None?
        && (i < |db.rows| && db.rows[i].version == db.version ==> db.rows[i].status.Pass?)
  {
    var db := Run(Fresh(mission, requirement, release, showcase), steps);
    RunSound(mission, requirement, release, showcase, steps);
    CursorPrefix(mission, requirement, release, showcase, steps);
    if db.state.WaitingH4? || db.state.Completed? {
      if i < |db.rows| && db.rows[i].version == db.version {
        assert PlacedAround(db.rows[i], CurrentStep(db));
      }
    }
  }

  // ------------------------------------------------------------------ how it completes

  predicate Completes(writes: seq<Write>) {
    exists i :: 0 <= i < |writes| && writes[i].StateSet? && writes[i].state.Completed?
  }

  lemma {:induction false} OneCompletes(db: Db, w: Write)
    requires !db.state.Completed? && Apply(db, w).state.Completed?
    ensures w.StateSet? && w.state.Completed?
  {
  }

  lemma {:induction false} CompletedByStateSet(db: Db, writes: seq<Write>)
    requires !db.state.Completed? && Replay(db, writes).state.Completed?
    ensures Completes(writes)
  {
    var front, last := writes[..|writes| - 1], writes[|writes| - 1];
    if Replay(db, front).state.Completed? {
      CompletedByStateSet(db, front);
      var i :| 0 <= i < |front| && front[i].StateSet? && front[i].state.Completed?;
      assert writes[i] == front[i];
    } else {
      OneCompletes(Replay(db, front), last);
    }
  }

  lemma {:induction false} RunStepNeverCompletes(db: Db, w: World, row: Row, response: Response, taskId: Id)
    ensures !Completes(RunStepPlan(db, w, row, response, taskId).writes)
  {
  }

  lemma {:induction false} ExecuteNeverCompletes(db: Db, role: Role, w: World, response: Response, taskId: Id)
    ensures !Completes(ExecuteCurrentStep(db, role, w, response, taskId).writes)
  {
    if CurrentStep(db).Some? {
      var row := CurrentStep(db).value;
      RunStepNeverCompletes(Apply(db, StepSet(row.id, Running)), w, row, response, taskId);
    }
  }

  lemma {:induction false} OthersNeverComplete(db: Db, op: Operation)
    requires Sound(db) && Driven(op) && !op.OpFinalize? && !op.OpExecute?
    ensures !Completes(PlanOf(db, op).writes)
  {
  }

  /** COMPLETED is entered only by finalizing a mission that waits for H4, with an approving decision. */
  lemma {:induction false} CompletedOnlyByFinalize(db: Db, step: Step)
    requires Consistent(db) && Sound(db) && Driven(step.op)
    requires !db.state.Completed? && After(db, step).state.Completed?
    ensures step.op.OpFinalize? && step.op.decision in {Approve, AcceptRisk} && db.state.WaitingH4?
  {
    var kept := Take(PlanOf(db, step.op).writes, step.survives);
    CompletedByStateSet(db, kept);
    var i :| 0 <= i < |kept| && kept[i].StateSet? && kept[i].state.Completed?;
    assert PlanOf(db, step.op).writes[i] == kept[i];
    if step.op.OpExecute? {
      ExecuteNeverCompletes(db, step.op.role, step.op.world, step.op.response, step.op.task);
    } else if !step.op.OpFinalize? {
      OthersNeverComplete(db, step.op);
    }
  }

  // ------------------------------------------------------------------- closed missions

  predicate KeepsState(w: Write) {
    !w.StateSet? && !w.StepOutput? && !w.StepJudged? && !w.PreflightStored?
  }

  lemma {:induction false} OneKeepsState(db: Db, w: Write)
    requires KeepsState(w)
    ensures Apply(db, w).state == db.state
  {
  }

  lemma {:induction false} KeepStates(db: Db, writes: seq<Write>)
    requires forall i :: 0 <= i < |writes| ==> KeepsState(writes[i])
    ensures Replay(db, writes).state == db.state
  {
    if writes != [] {
      KeepStates(db, writes[..|writes| - 1]);
      OneKeepsState(Replay(db, writes[..|writes| - 1]), writes[|writes| - 1]);
    }
  }

  lemma {:induction false} ClosedCompletion(db: Db, id: Id, user: Id, i: nat)
    requires db.state.Completed? || db.state.Aborted?
    requires i < |CompleteTask(db, id, user).writes|
    ensures KeepsState(CompleteTask(db, id, user).writes[i])
  {
  }

  lemma {:induction false} ClosedPlans(db: Db, op: Operation, i: nat)
    requires db.state.Completed? || db.state.Aborted?
    requires Driven(op) && !op.OpPreflight? && i < |PlanOf(db, op).writes|
    ensures KeepsState(PlanOf(db, op).writes[i])
  {
    if op.OpCompleteTask? {
      ClosedCompletion(db, op.id, op.user, i);
    }
  }

  /**
   The transition table lets nothing out of COMPLETED and ABORTED, but a preflight evaluation
   does not ask the table: a closed mission stays closed exactly as long as none is stored.
   */
  lemma {:induction false} ClosedUnlessPreflight(db: Db, step: Step)
    requires (db.state.Completed? || db.state.Aborted?) && Driven(step.op)
    ensures After(db, step).state == db.state <==> !(step.op.OpPreflight? && step.survives > 0)
  {
    var kept := Take(PlanOf(db, step.op).writes, step.survives);
    if step.op.OpPreflight? {
      if step.survives > 0 {
        assert kept == [kept[0]];
        ReplayOne(db, kept[0]);
      }
    } else {
      forall i | 0 <= i < |kept| ensures KeepsState(kept[i]) {
        ClosedPlans(db, step.op, i);
      }
      KeepStates(db, kept);
    }
  }
}

/**
 The mission engine as it runs: tables that its methods update transaction by transaction.
 Every method is tied to its plan, so what the other modules prove about plans, their
 prefixes and whole runs holds of the engine.
 */
module MissionEngine {
  import opened Prelude
  import opened Json
  import opened Mission
  import opened MissionInvariants

  lemma {:induction false} NextRowOf(version: nat, plan: seq<(Id, StepDef)>, i: nat)
    requires i < |plan|
    ensures NewRows(version, plan)[..i + 1] ==
            NewRows(version, plan)[..i] + [Row(plan[i].0, version, i + 1, plan[i].1, Pending, None)]
  {
  }

  class Engine {
    const mission: Id
    const requirement: bool
    const release: bool
    const showcase: bool
    var state: MissionState
    var version: nat
    var cursor: Option<Id>
    var resume: Option<MissionState>
    var environment: Option<Id>
    var fingerprint: Option<Id>
    var rows: seq<Row>
    var tasks: map<Id, HumanTask>
    var gates: map<GateType, Gate>
    var audit: seq<AuditRow>
    /** Every transaction committed so far, in order. */
    ghost var journal: seq<Write>

    constructor (mission: Id, requirement: bool, release: bool, showcase: bool)
      ensures Tables() == Fresh(mission, requirement, release, showcase) && journal == []
    {
      this.mission, this.requirement, this.release, this.showcase := mission, requirement, release, showcase;
      state, version, cursor, resume, environment, fingerprint := Draft, 0, None, None, None, None;
      rows, tasks, gates, audit, journal := [], map[], map[], [], [];
    }

    /** The contents of the tables. */
    function Tables(): (db: Db)
      reads this
    {
      Db(mission, requirement, release, showcase, state, version, cursor, resume, environment, fingerprint,
         rows, tasks, gates, audit)
    }

    // ---------------------------------------------------------------- transactions

    method SetState(to: MissionState, resumeTo: Option<MissionState>)
      modifies this
      ensures Tables() == Apply(old(Tables()), StateSet(to, resumeTo))
      ensures journal == old(journal) + [StateSet(to, resumeTo)]
    {
      state, resume := to, resumeTo;
      journal := journal + [StateSet(to, resumeTo)];
    }

    method UpdateStep(step: Id, status: StepStatus)
      modifies this
      ensures Tables() == Apply(old(Tables()), StepSet(step, status))
      ensures journal == old(journal) + [StepSet(step, status)]
    {
      rows := SetStatus(rows, step, status);
      journal := journal + [StepSet(step, status)];
    }

    /** The plan version, its rows one after the other, and the cursor. */
    method FreezePlan(plan: seq<(Id, StepDef)>)
      modifies this
      ensures Tables() == Apply(old(Tables()), PlanFrozen(plan))
      ensures journal == old(journal) + [PlanFrozen(plan)]
    {
      for i := 0 to |plan|
        invariant Tables() == old(Tables()).(rows := old(rows) + NewRows(version + 1, plan)[..i])
            && journal == old(journal)
      {
        NextRowOf(version + 1, plan, i);
        rows := rows + [Row(plan[i].0, version + 1, i + 1, plan[i].1, Pending, None)];
      }
      assert NewRows(version + 1, plan)[..|plan|] == NewRows(version + 1, plan);
      version := version + 1;
      cursor := if plan == [] then None else Some(plan[0].0);
      journal := journal + [PlanFrozen(plan)];
    }

    method StoreOutput(step: Id, output: Value)
      modifies this
      ensures Tables() == Apply(old(Tables()), StepOutput(step, output))
      ensures journal == old(journal) + [StepOutput(step, output)]
    {
      rows := SetOutput(rows, step, output);
      state := Verifying;
      journal := journal + [StepOutput(step, output)];
    }

    method StoreVerdict(step: Id, verdict: Verdict, next: Option<Id>)
      modifies this
      ensures Tables() == Apply(old(Tables()), StepJudged(step, verdict, next))
      ensures journal == old(journal) + [StepJudged(step, verdict, next)]
    {
      rows := SetStatus(rows, step, StatusOf(verdict));
      if verdict.VerdictPass? {
        cursor := next;
        state := if next.Some? then Executing else WaitingH4;
      } else {
        state := Blocked;
      }
      journal := journal + [StepJudged(step, verdict, next)];
    }

    method StorePreflight(ok: bool, environmentId: Id, baseline: Option<Id>)
      modifies this
      ensures Tables() == Apply(old(Tables()), PreflightStored(ok, environmentId, baseline))
      ensures journal == old(journal) + [PreflightStored(ok, environmentId, baseline)]
    {
      state := if ok then WaitingH3 else Blocked;
      environment, fingerprint := Some(environmentId), baseline;
      journal := journal + [PreflightStored(ok, environmentId, baseline)];
    }

    method SetGate(gate: GateType, value: Gate)
      modifies this
      ensures Tables() == Apply(old(Tables()), GateSet(gate, value))
      ensures journal == old(journal) + [GateSet(gate, value)]
    {
      gates := gates[gate := value];
      journal := journal + [GateSet(gate, value)];
    }

    method PutTask(id: Id, task: HumanTask)
      modifies this
      ensures Tables() == Apply(old(Tables()), TaskSet(id, task))
      ensures journal == old(journal) + [TaskSet(id, task)]
    {
      tasks := tasks[id := task];
      journal := journal + [TaskSet(id, task)];
    }

    method Audit(row: AuditRow)
      modifies this
      ensures Tables() == Apply(old(Tables()), AuditAppended(row))
      ensures journal == old(journal) + [AuditAppended(row)]
    {
      audit := audit + [row];
      journal := journal + [AuditAppended(row)];
    }

    // ------------------------------------------------------------------ operations

    method Transition(to: MissionState, force: bool) returns (outcome: Outcome)
      modifies this
      ensures Tables() == Replay(old(Tables()), MovePlan(old(Tables()), to, force).writes)
      ensures journal == old(journal) + MovePlan(old(Tables()), to, force).writes
      ensures outcome == MovePlan(old(Tables()), to, force).outcome
    {
      if !force && to !in AllowedTransitions(state) {
        return Raised(InvalidTransition);
      }
      var resumeTo := resume;
      if to.WaitingHuman? {
        resumeTo := Some(state);
      } else if state.WaitingHuman? && (to.Executing? || to.Verifying?) {
        resumeTo := None;
      }
      ReplayOne(Tables(), StateSet(to, resumeTo));
      SetState(to, resumeTo);
      outcome := Done(Normal);
    }

    method SubmitPlan(role: Role, steps: seq<PlanStep>, taken: set<Id>) returns (outcome: Outcome)
      modifies this
      ensures Tables() == Replay(old(Tables()), Mission.SubmitPlan(old(Tables()), role, steps, taken).writes)
      ensures journal == old(journal) + Mission.SubmitPlan(old(Tables()), role, steps, taken).writes
      ensures outcome == Mission.SubmitPlan(old(Tables()), role, steps, taken).outcome
    {
      if !role.Planner? {
        return Raised(NotPermitted);
      }
      if state !in {Planning, WaitingH2, Blocked} {
        return Raised(WrongState);
      }
      var plan: seq<(Id, StepDef)> := [];
      for i := 0 to |steps|
        invariant plan == Numbered(mission, steps)[..i]
      {
        var id := if Given(steps[i].id) then steps[i].id.value else DefaultStepId(mission, i + 1);
        plan := plan + [(id, Frozen(steps[i].def))];
      }
      assert Numbered(mission, steps)[..|steps|] == Numbered(mission, steps);
      if !IdsFree(Tables(), plan, taken) {
        return Raised(UniqueViolation);
      }
      ReplayOne(Tables(), PlanFrozen(plan));
      FreezePlan(plan);
      outcome := Done(Normal);
    }

    method RequestReplan(role: Role) returns (outcome: Outcome)
      modifies this
      ensures Tables() == Replay(old(Tables()), Mission.RequestReplan(old(Tables()), role).writes)
      ensures journal == old(journal) + Mission.RequestReplan(old(Tables()), role).writes
      ensures outcome == Mission.RequestReplan(old(Tables()), role).outcome
    {
      if !role.Director? && !role.HumanUser? {
        return Raised(NotPermitted);
      }
      if state.Completed? || state.Aborted? {
        return Raised(WrongState);
      }
      ReplayOne(Tables(), StateSet(Planning, resume));
      SetState(Planning, resume);
      outcome := Done(Normal);
    }

    method ClaimStep(role: Role) returns (outcome: Outcome)
      modifies this
      ensures Tables() == Replay(old(Tables()), Mission.ClaimStep(old(Tables()), role).writes)
      ensures journal == old(journal) + Mission.ClaimStep(old(Tables()), role).writes
      ensures outcome == Mission.ClaimStep(old(Tables()), role).outcome
    {
      if !role.Executor? {
        return Raised(NotPermitted);
      }
      if !state.Executing? {
        return Raised(WrongState);
      }
      var step := CurrentStep(Tables());
      if step.None? {
        return Done(NoPendingStep);
      }
      if step.value.def.role != role {
        return Raised(NotPermitted);
      }
      if step.value.status !in {Pending, Ready, StepBlocked} {
        return Raised(NotClaimable);
      }
      ReplayOne(Tables(), StepSet(step.value.id, Running));
      UpdateStep(step.value.id, Running);
      outcome := Done(Normal);
    }

    method EvaluatePreflight(environmentId: Id, w: World) returns (outcome: Outcome)
      modifies this
      ensures Tables() == Replay(old(Tables()), Mission.EvaluatePreflight(old(Tables()), environmentId, w).writes)
      ensures journal == old(journal) + Mission.EvaluatePreflight(old(Tables()), environmentId, w).writes
      ensures outcome == Mission.EvaluatePreflight(old(Tables()), environmentId, w).outcome
    {
      var baseline := if requirement && release then w.baseline else None;
      var ok := PreflightOk(Tables(), w);
      ReplayOne(Tables(), PreflightStored(ok, environmentId, baseline));
      StorePreflight(ok, environmentId, baseline);
      outcome := Done(Normal);
    }

    method AuthorizeExecution(decision: Decision) returns (outcome: Outcome)
      modifies this
      ensures Tables() == Replay(old(Tables()), Mission.AuthorizeExecution(old(Tables()), decision).writes)
      ensures journal == old(journal) + Mission.AuthorizeExecution(old(Tables()), decision).writes
      ensures outcome == Mission.AuthorizeExecution(old(Tables()), decision).outcome
    {
      var gate := ReviewedGate(decision);
      ReplayOne(Tables(), GateSet(H3, gate));
      ReplayCons(Tables(), GateSet(H3, gate), MovePlan(Apply(Tables(), GateSet(H3, gate)), Executing, false).writes);
      SetGate(H3, gate);
      if !gate.passed {
        return Done(Normal);
      }
      outcome := Transition(Executing, false);
    }

    /** Authorize, run, and record the decision; the response is what the capability did. */
    method Invoke(role: Role, capability: Id, step: Option<Id>, w: World, response: Response) returns (outcome: Outcome)
      modifies this
      ensures Tables() == Replay(old(Tables()), InvokePlan(old(Tables()), w, role, capability, step, response).writes)
      ensures journal == old(journal) + InvokePlan(old(Tables()), w, role, capability, step, response).writes
      ensures outcome == InvokePlan(old(Tables()), w, role, capability, step, response).outcome
    {
      InvokeLegal(Tables(), w, role, capability, step, response);
      if Refusal(Tables(), w, role, capability, step) {
        Audit(AuditRow(step, role, capability, Denied));
        return Raised(Unauthorized);
      }
      if !response.Returned? {
        Audit(AuditRow(step, role, capability, Failed));
        return Raised(CapabilityFailed);
      }
      Audit(AuditRow(step, role, capability, Allowed));
      outcome := Done(Normal);
    }

    method CreateTask(id: Id, validType: bool, step: Option<Id>, assignee: Option<Id>) returns (outcome: Outcome)
      modifies this
      ensures Tables() == Replay(old(Tables()), Mission.CreateTask(old(Tables()), id, validType, step, assignee).writes)
      ensures journal == old(journal) + Mission.CreateTask(old(Tables()), id, validType, step, assignee).writes
      ensures outcome == Mission.CreateTask(old(Tables()), id, validType, step, assignee).outcome
    {
      if !validType {
        return Raised(InvalidValue);
      }
      if id in tasks {
        return Raised(UniqueViolation);
      }
      var resumeTo := Executing;
      if state.Executing? || state.Verifying? {
        resumeTo := state;
      } else if resume.Some? {
        resumeTo := resume.value;
      }
      var task := HumanTask(step, assignee, TaskWaiting, resumeTo);
      ReplayOne(Tables(), TaskSet(id, task));
      ReplayCons(Tables(), TaskSet(id, task), MovePlan(Apply(Tables(), TaskSet(id, task)), WaitingHuman, false).writes);
      var suspended := state.WaitingHuman?;
      PutTask(id, task);
      if suspended {
        return Done(Normal);
      }
      outcome := Transition(WaitingHuman, false);
    }

    method ParkStep(row: Row, taskId: Id) returns (outcome: Outcome)
      modifies this
      ensures Tables() == Replay(old(Tables()), ParkPlan(old(Tables()), row, taskId).writes)
      ensures journal == old(journal) + ParkPlan(old(Tables()), row, taskId).writes
      ensures outcome == ParkPlan(old(Tables()), row, taskId).outcome
    {
      ghost var task := Mission.CreateTask(Tables(), taskId, true, Some(row.id), None);
      ReplayAppend(Tables(), task.writes, [StepSet(row.id, StepWaiting)]);
      outcome := CreateTask(taskId, true, Some(row.id), None);
      if outcome.Done? {
        ReplayOne(Tables(), StepSet(row.id, StepWaiting));
        UpdateStep(row.id, StepWaiting);
        outcome := Done(WaitsForHuman);
      }
    }

    method RunStep(row: Row, w: World, response: Response, taskId: Id) returns (outcome: Outcome)
      modifies this
      ensures Tables() == Replay(old(Tables()), RunStepPlan(old(Tables()), w, row, response, taskId).writes)
      ensures journal == old(journal) + RunStepPlan(old(Tables()), w, row, response, taskId).writes
      ensures outcome == RunStepPlan(old(Tables()), w, row, response, taskId).outcome
    {
      if row.def.capability.None? {
        return Raised(NotNullViolation);
      }
      ghost var before, start := Tables(), journal;
      ghost var invoke := InvokePlan(before, w, Executor, row.def.capability.value, Some(row.id), response).writes;
      outcome := Invoke(Executor, row.def.capability.value, Some(row.id), w, response);
      if outcome.Done? {
        var output := InvocationResult(row.def.capability.value, response.value);
        ReplayAppend(before, invoke, [StepOutput(row.id, output)]);
        Joined(start, invoke, [StepOutput(row.id, output)]);
        ReplayOne(Tables(), StepOutput(row.id, output));
        StoreOutput(row.id, output);
        outcome := Done(StepExecuted);
      } else if outcome == Raised(CapabilityFailed) && response.FileMissing? {
        ReplayAppend(before, invoke, ParkPlan(Tables(), row, taskId).writes);
        Joined(start, invoke, ParkPlan(Tables(), row, taskId).writes);
        outcome := ParkStep(row, taskId);
      }
    }

    method ExecuteCurrentStep(role: Role, w: World, response: Response, taskId: Id) returns (outcome: Outcome)
      modifies this
      ensures Tables() == Replay(old(Tables()),
          Mission.ExecuteCurrentStep(old(Tables()), role, w, response, taskId).writes)
      ensures journal == old(journal) + Mission.ExecuteCurrentStep(old(Tables()), role, w, response, taskId).writes
      ensures outcome == Mission.ExecuteCurrentStep(old(Tables()), role, w, response, taskId).outcome
    {
      if !role.Executor? {
        return Raised(NotPermitted);
      }
      if !state.Executing? {
        return Raised(WrongState);
      }
      if BaselineChanged(Tables(), w) {
        outcome := BlockOnBaseline();
        return;
      }
      var step := CurrentStep(Tables());
      if step.None? {
        outcome := Transition(WaitingH4, false);
        if outcome.Done? {
          outcome := Done(NoPendingStep);
        }
        return;
      }
      outcome := StartStep(step.value, w, response, taskId);
    }

    /** The step is marked as running before its capability runs. */
    method StartStep(row: Row, w: World, response: Response, taskId: Id) returns (outcome: Outcome)
      modifies this
      ensures var run := RunStepPlan(Apply(old(Tables()), StepSet(row.id, Running)), w, row, response, taskId);
        && Tables() == Replay(old(Tables()), [StepSet(row.id, Running)] + run.writes)
        && journal == old(journal) + ([StepSet(row.id, Running)] + run.writes)
        && outcome == run.outcome
    {
      ghost var start := StepSet(row.id, Running);
      ghost var rest := RunStepPlan(Apply(Tables(), start), w, row, response, taskId).writes;
      ReplayCons(Tables(), start, rest);
      Joined(journal, [start], rest);
      UpdateStep(row.id, Running);
      outcome := RunStep(row, w, response, taskId);
    }

    method BlockOnBaseline() returns (outcome: Outcome)
      modifies this
      ensures Tables() == Replay(old(Tables()),
          [GateSet(H3, Gate(false, Some(Rework))), StateSet(Blocked, old(resume))])
      ensures journal == old(journal) + [GateSet(H3, Gate(false, Some(Rework))), StateSet(Blocked, old(resume))]
      ensures outcome == Done(ChangedBaseline)
    {
      ghost var gate, block := GateSet(H3, Gate(false, Some(Rework))), StateSet(Blocked, resume);
      assert [gate] + [block] == [gate, block];
      ReplayCons(Tables(), gate, [block]);
      SetGate(H3, Gate(false, Some(Rework)));
      ReplayOne(Tables(), block);
      SetState(Blocked, resume);
      outcome := Done(ChangedBaseline);
    }

    method EvaluateCurrentStep(role: Role, override: Option<Verdict>) returns (outcome: Outcome)
      modifies this
      ensures Tables() == Replay(old(Tables()), Mission.EvaluateCurrentStep(old(Tables()), role, override).writes)
      ensures journal == old(journal) + Mission.EvaluateCurrentStep(old(Tables()), role, override).writes
      ensures outcome == Mission.EvaluateCurrentStep(old(Tables()), role, override).outcome
    {
      if !role.Evaluator? {
        return Raised(NotPermitted);
      }
      if !state.Verifying? {
        return Raised(WrongState);
      }
      var step := CurrentStep(Tables());
      if step.None? {
        outcome := Transition(WaitingH4, false);
        if outcome.Done? {
          outcome := Done(NoPendingStep);
        }
        return;
      }
      var verdict := VerdictOf(step.value, override);
      if verdict.VerdictInvalid? {
        return Raised(InvalidValue);
      }
      var following := NextRow(rows, step.value.version, step.value.ordinal);
      var next := if following.Some? then Some(following.value.id) else None;
      ReplayOne(Tables(), StepJudged(step.value.id, verdict, next));
      StoreVerdict(step.value.id, verdict, next);
      outcome := Done(Judged(verdict));
    }

    method FinalizeMission(decision: Decision) returns (outcome: Outcome)
      modifies this
      ensures Tables() == Replay(old(Tables()), Mission.FinalizeMission(old(Tables()), decision).writes)
      ensures journal == old(journal) + Mission.FinalizeMission(old(Tables()), decision).writes
      ensures outcome == Mission.FinalizeMission(old(Tables()), decision).outcome
    {
      if !state.WaitingH4? {
        return Raised(WrongState);
      }
      var gate := ReviewedGate(decision);
      var to := if gate.passed then Completed else Blocked;
      ReplayCons(Tables(), GateSet(H4, gate), MovePlan(Apply(Tables(), GateSet(H4, gate)), to, false).writes);
      SetGate(H4, gate);
      outcome := Transition(to, false);
    }

    method ClaimTask(id: Id, user: Id) returns (outcome: Outcome)
      modifies this
      ensures Tables() == Replay(old(Tables()), Mission.ClaimTask(old(Tables()), id, user).writes)
      ensures journal == old(journal) + Mission.ClaimTask(old(Tables()), id, user).writes
      ensures outcome == Mission.ClaimTask(old(Tables()), id, user).outcome
    {
      if id !in tasks {
        return Raised(TaskNotFound);
      }
      if !tasks[id].status.TaskWaiting? {
        return Raised(TaskNotOpen);
      }
      ReplayOne(Tables(), TaskSet(id, tasks[id].(status := TaskClaimed, assignee := Some(user))));
      PutTask(id, tasks[id].(status := TaskClaimed, assignee := Some(user)));
      outcome := Done(Normal);
    }

    method ResumeAfter(task: HumanTask) returns (outcome: Outcome)
      modifies this
      ensures Tables() == Replay(old(Tables()), ResumePlan(old(Tables()), task).writes)
      ensures journal == old(journal) + ResumePlan(old(Tables()), task).writes
      ensures outcome == ResumePlan(old(Tables()), task).outcome
    {
      ghost var before, ready := Tables(), ReadyWrites(Tables(), task);
      ghost var move := MovePlan(Replay(before, ready), task.resume, false).writes;
      ReplayAppend(before, ready, move);
      var remaining, suspended := AnyOpen(Tables()), state.WaitingHuman?;
      if task.step.Some? {
        var row := FindRow(rows, task.step.value);
        if row.Some? && row.value.status.StepWaiting? {
          ReplayOne(before, StepSet(task.step.value, Ready));
          UpdateStep(task.step.value, Ready);
        }
      }
      assert Tables() == Replay(before, ready);
      if remaining || !suspended {
        return Done(Normal);
      }
      outcome := Transition(task.resume, false);
    }

    method CompleteTask(id: Id, user: Id) returns (outcome: Outcome)
      modifies this
      ensures Tables() == Replay(old(Tables()), Mission.CompleteTask(old(Tables()), id, user).writes)
      ensures journal == old(journal) + Mission.CompleteTask(old(Tables()), id, user).writes
      ensures outcome == Mission.CompleteTask(old(Tables()), id, user).outcome
    {
      if id !in tasks {
        return Raised(TaskNotFound);
      }
      var task := tasks[id];
      if task.status.TaskDone? {
        return Raised(TaskNotOpen);
      }
      if Given(task.assignee) && task.assignee.value != user {
        return Raised(AssignedToAnother);
      }
      ghost var close := TaskSet(id, task.(status := TaskDone, assignee := Some(user)));
      ReplayCons(Tables(), close, ResumePlan(Apply(Tables(), close), task).writes);
      PutTask(id, task.(status := TaskDone, assignee := Some(user)));
      outcome := ResumeAfter(task);
    }
  }
  lemma {:induction false} Joined(journal: seq<Write>, first: seq<Write>, second: seq<Write>)
    ensures (journal + first) + second == journal + (first + second)
  {
  }
}

/** Suspending a mission for humans and resuming it. */
module MissionHuman {
  import opened Prelude
  import opened Mission
  import opened MissionInvariants
  import opened MissionSoundness

  /** No task is open but this one. */
  predicate OnlyOpen(db: Db, id: Id) {
    && id in db.tasks && OpenTask(db.tasks[id])
    && forall other | other in db.tasks && other != id :: !OpenTask(db.tasks[other])
  }

  lemma {:induction false} ClosingLast(db: Db, id: Id, closed: HumanTask)
    requires id in db.tasks && OpenTask(db.tasks[id]) && closed.status.TaskDone?
    ensures AnyOpen(Apply(db, TaskSet(id, closed))) <==> !OnlyOpen(db, id)
  {
    var r := Apply(db, TaskSet(id, closed));
    if !OnlyOpen(db, id) {
      var other :| other in db.tasks && other != id && OpenTask(db.tasks[other]);
      assert other in r.tasks && OpenTask(r.tasks[other]);
    }
  }

  lemma {:induction false} ReadyIs(db: Db, task: HumanTask)
    ensures var r := Replay(db, ReadyWrites(db, task));
      r == db.(rows := r.rows) && (task.step.None? ==> r.rows == db.rows)
  {
    if ReadyWrites(db, task) != [] {
      ReplayOne(db, ReadyWrites(db, task)[0]);
    }
  }

  /** Leaving the suspension is always allowed by the table. */
  lemma {:induction false} LeavingIs(db: Db, to: MissionState)
    requires db.state.WaitingHuman? && to in {Executing, Verifying}
    ensures MovePlan(db, to, false) == Plan([StateSet(to, None)], Done(Normal))
    ensures Replay(db, MovePlan(db, to, false).writes) == db.(state := to, resume := None)
  {
    ReplayOne(db, StateSet(to, None));
  }

  /** What resuming does once the task is closed. */
  lemma {:induction false} ResumeIs(db: Db, task: HumanTask)
    requires task.resume in {Executing, Verifying}
    ensures var r := Replay(db, ResumePlan(db, task).writes);
      && ResumePlan(db, task).outcome == Done(Normal)
      && (task.step.None? ==> r.rows == db.rows)
      && r == (if db.state.WaitingHuman? && !AnyOpen(db) then db.(rows := r.rows, state := task.resume, resume := None)
               else db.(rows := r.rows))
  {
    var ready := ReadyWrites(db, task);
    ReadyIs(db, task);
    if db.state.WaitingHuman? && !AnyOpen(db) {
      var mid := Replay(db, ready);
      LeavingIs(mid, task.resume);
      ReplayAppend(db, ready, MovePlan(mid, task.resume, false).writes);
    }
  }

  function Closed(task: HumanTask, user: Id): (r: HumanTask) {
    task.(status := TaskDone, assignee := Some(user))
  }

  lemma {:induction false} CompletingWrites(db: Db, id: Id, user: Id)
    requires CompleteTask(db, id, user).writes != []
    ensures id in db.tasks && OpenTask(db.tasks[id])
    ensures var close := TaskSet(id, Closed(db.tasks[id], user));
      CompleteTask(db, id, user).writes == [close] + ResumePlan(Apply(db, close), db.tasks[id]).writes
  {
  }

  /** The state after an accepted completion. */
  lemma {:induction false} CompletingIs(db: Db, id: Id, user: Id)
    requires Sound(db) && CompleteTask(db, id, user).writes != []
    ensures id in db.tasks && OpenTask(db.tasks[id])
    ensures var mid := Apply(db, TaskSet(id, Closed(db.tasks[id], user)));
      var r := Replay(db, CompleteTask(db, id, user).writes);
      && (db.tasks[id].step.None? ==> r.rows == db.rows)
      && r == (if db.state.WaitingHuman? && !AnyOpen(mid)
               then mid.(rows := r.rows, state := db.tasks[id].resume, resume := None) else mid.(rows := r.rows))
  {
    CompletingWrites(db, id, user);
    ClosedThenResumed(db, id, db.tasks[id], TaskSet(id, Closed(db.tasks[id], user)));
  }

  lemma {:induction false} ClosedThenResumed(db: Db, id: Id, task: HumanTask, close: Write)
    requires close.TaskSet? && task.resume in {Executing, Verifying}
    ensures var mid := Apply(db, close);
      var r := Replay(db, [close] + ResumePlan(mid, task).writes);
      && (task.step.None? ==> r.rows == db.rows)
      && r == (if db.state.WaitingHuman? && !AnyOpen(mid)
               then mid.(rows := r.rows, state := task.resume, resume := None) else mid.(rows := r.rows))
  {
    var mid := Apply(db, close);
    ResumeIs(mid, task);
    ReplayCons(db, close, ResumePlan(mid, task).writes);
  }

  /**
   Completing a task resumes a suspended mission if and only if no other task is open, and then
   into the state recorded with that task. A mission that is not suspended stays where it is,
   and the cursor never moves.
   */
  lemma {:induction false} CompletingResumes(db: Db, id: Id, user: Id)
    requires Sound(db) && CompleteTask(db, id, user).outcome.Done?
    ensures var r := Replay(db, CompleteTask(db, id, user).writes);
      && id in db.tasks && OpenTask(db.tasks[id])
      && r.cursor == db.cursor && r.version == db.version
      && id in r.tasks && !OpenTask(r.tasks[id])
      && (forall other | other in db.tasks && other != id :: other in r.tasks && r.tasks[other] == db.tasks[other])
      && (db.state.WaitingHuman? ==>
            r.state == if OnlyOpen(db, id) then db.tasks[id].resume else WaitingHuman)
      && (!db.state.WaitingHuman? ==> r.state == db.state)
  {
    ClosingLast(db, id, Closed(db.tasks[id], user));
    CompletingIs(db, id, user);
  }

  /** In sound states an accepted completion never fails half-way. */
  lemma {:induction false} CompletionNeverRejected(db: Db, id: Id, user: Id)
    requires Sound(db) && CompleteTask(db, id, user).writes != []
    ensures CompleteTask(db, id, user).outcome == Done(Normal)
  {
    var closed := db.tasks[id].(status := TaskDone, assignee := Some(user));
    ResumeIs(Apply(db, TaskSet(id, closed)), db.tasks[id]);
  }

  // ------------------------------------------------------------- suspended means open

  /** A suspended mission has somebody to wait for. */
  predicate Attended(db: Db) {
    db.state.WaitingHuman? ==> AnyOpen(db)
  }

  lemma {:induction false} TaskOpens(db: Db, id: Id, task: HumanTask)
    requires OpenTask(task)
    ensures AnyOpen(Apply(db, TaskSet(id, task)))
  {
    assert id in Apply(db, TaskSet(id, task)).tasks;
  }

  lemma {:induction false} SameTasks(db: Db, r: Db)
    requires r.tasks == db.tasks
    ensures AnyOpen(r) == AnyOpen(db)
  {
  }

  predicate Closes(w: Write) {
    w.TaskSet? && !OpenTask(w.task)
  }

  lemma {:induction false} OneAttended(db: Db, w: Write)
    requires Attended(db) && Disciplined(db, w) && !Closes(w)
    ensures Attended(Apply(db, w))
  {
    if w.TaskSet? {
      TaskOpens(db, w.id, w.task);
    } else {
      SameTasks(db, Apply(db, w));
    }
  }

  lemma {:induction false} WritesAttended(db: Db, writes: seq<Write>)
    requires Attended(db) && AllDisciplined(db, writes) && forall i :: 0 <= i < |writes| ==> !Closes(writes[i])
    ensures Attended(Replay(db, writes))
  {
    if writes != [] {
      WritesAttended(db, writes[..|writes| - 1]);
      OneAttended(Replay(db, writes[..|writes| - 1]), writes[|writes| - 1]);
    }
  }

  lemma {:induction false} RunStepNeverCloses(db: Db, w: World, row: Row, response: Response, taskId: Id, i: nat)
    requires i < |RunStepPlan(db, w, row, response, taskId).writes|
    ensures !Closes(RunStepPlan(db, w, row, response, taskId).writes[i])
  {
  }

  lemma {:induction false} ExecuteNeverCloses(db: Db, role: Role, w: World, response: Response, taskId: Id, i: nat)
    requires i < |ExecuteCurrentStep(db, role, w, response, taskId).writes|
    ensures !Closes(ExecuteCurrentStep(db, role, w, response, taskId).writes[i])
  {
    if i > 0 && CurrentStep(db).Some? {
      var row := CurrentStep(db).value;
      if i - 1 < |RunStepPlan(Apply(db, StepSet(row.id, Running)), w, row, response, taskId).writes| {
        RunStepNeverCloses(Apply(db, StepSet(row.id, Running)), w, row, response, taskId, i - 1);
      }
    }
  }

  lemma {:induction false} OthersNeverClose(db: Db, op: Operation, i: nat)
    requires Driven(op) && !op.OpCompleteTask? && i < |PlanOf(db, op).writes|
    ensures !Closes(PlanOf(db, op).writes[i])
  {
    if op.OpExecute? {
      ExecuteNeverCloses(db, op.role, op.world, op.response, op.task, i);
    }
  }

  lemma {:induction false} OneTasksStay(db: Db, w: Write)
    ensures !w.TaskSet? ==> Apply(db, w).tasks == db.tasks
    ensures db.tasks.Keys <= Apply(db, w).tasks.Keys
  {
  }

  lemma {:induction false} TasksStay(db: Db, writes: seq<Write>)
    requires forall i :: 0 <= i < |writes| ==> !writes[i].TaskSet?
    ensures Replay(db, writes).tasks == db.tasks
  {
    if writes != [] {
      TasksStay(db, writes[..|writes| - 1]);
      OneTasksStay(Replay(db, writes[..|writes| - 1]), writes[|writes| - 1]);
    }
  }

  /** While another task is open, it stays open however far a completion gets. */
  lemma {:induction false} OtherStaysOpen(db: Db, id: Id, user: Id, k: nat)
    requires k <= |CompleteTask(db, id, user).writes| && AnyOpen(db) && !OnlyOpen(db, id)
    ensures AnyOpen(Replay(db, CompleteTask(db, id, user).writes[..k]))
  {
    var writes := CompleteTask(db, id, user).writes;
    if k == 0 {
      assert writes[..0] == [] && Replay(db, []) == db;
    } else {
      ClosingLast(db, id, writes[0].task);
      assert writes[..k] == [writes[0]] + writes[1..k];
      ReplayCons(db, writes[0], writes[1..k]);
      TasksStay(Apply(db, writes[0]), writes[1..k]);
      SameTasks(Apply(db, writes[0]), Replay(db, writes[..k]));
    }
  }

  lemma {:induction false} CompletionMoves(db: Db, id: Id, user: Id, i: nat)
    requires !db.state.WaitingHuman? && i < |CompleteTask(db, id, user).writes|
    ensures KeepsState(CompleteTask(db, id, user).writes[i])
  {
  }

  /** The completion of the last open task of a suspended mission dies between its first and its last commit. */
  predicate Strands(db: Db, step: Step) {
    && step.op.OpCompleteTask? && db.state.WaitingHuman? && OnlyOpen(db, step.op.id)
    && CompleteTask(db, step.op.id, step.op.user).outcome.Done?
    && 0 < step.survives < |CompleteTask(db, step.op.id, step.op.user).writes|
  }

  lemma {:induction false} CompletionAttended(db: Db, step: Step)
    requires Sound(db) && Attended(db) && step.op.OpCompleteTask?
    ensures Attended(After(db, step)) <==> !Strands(db, step)
  {
    var id, user := step.op.id, step.op.user;
    var writes := CompleteTask(db, id, user).writes;
    var kept := Take(writes, step.survives);
    assert kept == writes[..|kept|];
    if !db.state.WaitingHuman? {
      forall i | 0 <= i < |kept| ensures KeepsState(kept[i]) {
        CompletionMoves(db, id, user, i);
      }
      KeepStates(db, kept);
    } else if !OnlyOpen(db, id) {
      OtherStaysOpen(db, id, user, |kept|);
    } else if writes != [] {
      CompletionNeverRejected(db, id, user);
      CrashStrands(db, id, user, |kept|);
    }
  }

  lemma {:induction false} StepAttended(db: Db, step: Step)
    requires Sound(db) && Attended(db) && Driven(step.op)
    ensures Attended(After(db, step)) <==> !Strands(db, step)
  {
    if step.op.OpCompleteTask? {
      CompletionAttended(db, step);
    } else {
      var kept := Take(PlanOf(db, step.op).writes, step.survives);
      PlanDisciplined(db, step.op);
      if step.survives < |PlanOf(db, step.op).writes| {
        DisciplinedPrefix(db, PlanOf(db, step.op).writes, step.survives);
      }
      forall i | 0 <= i < |kept| ensures !Closes(kept[i]) {
        OthersNeverClose(db, step.op, i);
      }
      WritesAttended(db, kept);
    }
  }

  /** No step of the run stranded the mission. */
  predicate NoStranding(db: Db, steps: seq<Step>) {
    steps == [] ||
    (NoStranding(db, steps[..|steps| - 1]) && !Strands(Run(db, steps[..|steps| - 1]), steps[|steps| - 1]))
  }

  /** At every point of the run a suspended mission had an open task. */
  predicate AlwaysAttended(db: Db, steps: seq<Step>) {
    (steps == [] || AlwaysAttended(db, steps[..|steps| - 1])) && Attended(Run(db, steps))
  }

  lemma {:induction false} AttendedNow(db: Db, steps: seq<Step>)
    requires AlwaysAttended(db, steps)
    ensures Attended(Run(db, steps))
  {
  }

  /**
   In every run without hand-made transitions, crashes anywhere included, WAITING_HUMAN always means
   an open task, exactly when no completion of the last open task died between its first and its
   last commit.
   */
  lemma {:induction false} AttendedIffNoStranding(mission: Id, requirement: bool, release: bool, showcase: bool,
      steps: seq<Step>)
    requires forall step | step in steps :: Driven(step.op)
    ensures var db := Fresh(mission, requirement, release, showcase); AlwaysAttended(db, steps) <==>
        NoStranding(db, steps)
  {
    if steps != [] {
      var front, last := steps[..|steps| - 1], steps[|steps| - 1];
      assert forall step | step in front :: step in steps;
      assert last in steps;
      var db := Fresh(mission, requirement, release, showcase);
      AttendedIffNoStranding(mission, requirement, release, showcase, front);
      RunSound(mission, requirement, release, showcase, front);
      if AlwaysAttended(db, front) {
        AttendedNow(db, front);
        StepAttended(Run(db, front), last);
      }
    }
  }

  /** When a task can be asked for. */
  lemma {:induction false} CreationOutcome(db: Db, id: Id, validType: bool, step: Option<Id>, assignee: Option<Id>)
    ensures CreateTask(db, id, validType, step, assignee).outcome.Done? <==>
            validType && id !in db.tasks && (db.state.Executing? || db.state.WaitingHuman?)
  {
  }

  /** A run in which every operation runs to its end. */
  function Complete(db: Db, ops: seq<Operation>): (r: Db) {
    if ops == [] then db
    else
      var before := Complete(db, ops[..|ops| - 1]);
      Replay(before, PlanOf(before, ops[|ops| - 1]).writes)
  }

  lemma {:induction false} WholeAfter(db: Db, op: Operation)
    ensures After(db, Step(op, |PlanOf(db, op).writes|)) == Replay(db, PlanOf(db, op).writes)
  {
  }

  lemma {:induction false} CompleteKeepsSound(db: Db, op: Operation)
    requires Consistent(db) && Sound(db) && Driven(op)
    ensures var r := Replay(db, PlanOf(db, op).writes); Consistent(r) && Sound(r)
  {
    WholeAfter(db, op);
    StepKeepsSound(db, Step(op, |PlanOf(db, op).writes|));
    PlanLegal(db, op);
    WritesKeepConsistent(db, PlanOf(db, op).writes);
  }

  lemma {:induction false} CompleteAttended(db: Db, op: Operation)
    requires Sound(db) && Attended(db) && Driven(op)
    ensures Attended(Replay(db, PlanOf(db, op).writes))
  {
    WholeAfter(db, op);
    StepAttended(db, Step(op, |PlanOf(db, op).writes|));
  }

  lemma {:induction false} CompleteOne(db: Db, op: Operation)
    requires Consistent(db) && Sound(db) && Attended(db) && Driven(op)
    ensures var r := Replay(db, PlanOf(db, op).writes); Consistent(r) && Sound(r) && Attended(r)
  {
    CompleteKeepsSound(db, op);
    CompleteAttended(db, op);
  }

  lemma {:induction false} CompleteKeeps(mission: Id, requirement: bool, release: bool, showcase: bool,
      ops: seq<Operation>)
    requires forall op | op in ops :: Driven(op)
    ensures var db := Complete(Fresh(mission, requirement, release, showcase), ops);
      Consistent(db) && Sound(db) && Attended(db)
  {
    if ops != [] {
      var front, op := ops[..|ops| - 1], ops[|ops| - 1];
      assert forall o | o in front :: o in ops;
      assert op in ops;
      CompleteKeeps(mission, requirement, release, showcase, front);
      CompleteOne(Complete(Fresh(mission, requirement, release, showcase), front), op);
    }
  }

  /** Suspended means somebody to wait for, as long as every operation runs to its end. */
  lemma {:induction false} WaitingHasOpenTask(mission: Id, requirement: bool, release: bool, showcase: bool,
      ops: seq<Operation>)
    requires forall op | op in ops :: Driven(op)
    ensures var db := Complete(Fresh(mission, requirement, release, showcase), ops); db.state.WaitingHuman? ==>
        AnyOpen(db)
  {
    CompleteKeeps(mission, requirement, release, showcase, ops);
  }

  // -------------------------------------------------------- back where it came from

  /** Every task on record sends the mission back to executing. */
  ghost predicate AllToExecuting(db: Db) {
    forall id | id in db.tasks :: db.tasks[id].resume.Executing?
  }

  /** A call that creates a task and returns normally. */
  predicate Normally(db: Db, op: Operation) {
    op.OpCreateTask? ==> PlanOf(db, op).outcome.Done?
  }

  predicate AllNormal(db: Db, ops: seq<Operation>) {
    ops == [] ||
    (AllNormal(db, ops[..|ops| - 1]) && Normally(Complete(db, ops[..|ops| - 1]), ops[|ops| - 1]))
  }

  predicate ToExecuting(w: Write) {
    w.TaskSet? ==> w.task.resume.Executing?
  }

  lemma {:induction false} OneToExecuting(db: Db, w: Write)
    requires AllToExecuting(db) && ToExecuting(w)
    ensures AllToExecuting(Apply(db, w))
  {
  }

  lemma {:induction false} ToExecutingKeeps(db: Db, writes: seq<Write>)
    requires AllToExecuting(db) && forall i :: 0 <= i < |writes| ==> ToExecuting(writes[i])
    ensures AllToExecuting(Replay(db, writes))
  {
    if writes != [] {
      ToExecutingKeeps(db, writes[..|writes| - 1]);
      OneToExecuting(Replay(db, writes[..|writes| - 1]), writes[|writes| - 1]);
    }
  }

  lemma {:induction false} RunStepToExecuting(db: Db, w: World, row: Row, response: Response, taskId: Id, i: nat)
    requires db.state.Executing? && i < |RunStepPlan(db, w, row, response, taskId).writes|
    ensures ToExecuting(RunStepPlan(db, w, row, response, taskId).writes[i])
  {
    InvokeLegal(db, w, Executor, row.def.capability.value, Some(row.id), response);
  }

  lemma {:induction false} ExecuteToExecuting(db: Db, role: Role, w: World, response: Response, taskId: Id, i: nat)
    requires i < |ExecuteCurrentStep(db, role, w, response, taskId).writes|
    ensures ToExecuting(ExecuteCurrentStep(db, role, w, response, taskId).writes[i])
  {
    if i > 0 && CurrentStep(db).Some? {
      var row := CurrentStep(db).value;
      if i - 1 < |RunStepPlan(Apply(db, StepSet(row.id, Running)), w, row, response, taskId).writes| {
        RunStepToExecuting(Apply(db, StepSet(row.id, Running)), w, row, response, taskId, i - 1);
      }
    }
  }

  lemma {:induction false} OthersToExecuting(db: Db, op: Operation, i: nat)
    requires Sound(db) && Attended(db) && AllToExecuting(db) && Driven(op) && Normally(db, op) && !op.OpExecute?
    requires i < |PlanOf(db, op).writes|
    ensures ToExecuting(PlanOf(db, op).writes[i])
  {
    if op.OpCreateTask? {
      CreationOutcome(db, op.id, op.validType, op.step, op.assignee);
    }
  }

  lemma {:induction false} NormalRunsToExecuting(mission: Id, requirement: bool, release: bool, showcase: bool,
      ops: seq<Operation>)
    requires forall op | op in ops :: Driven(op)
    requires AllNormal(Fresh(mission, requirement, release, showcase), ops)
    ensures AllToExecuting(Complete(Fresh(mission, requirement, release, showcase), ops))
  {
    if ops != [] {
      var front, op := ops[..|ops| - 1], ops[|ops| - 1];
      assert forall o | o in front :: o in ops;
      assert op in ops;
      NormalRunsToExecuting(mission, requirement, release, showcase, front);
      CompleteKeeps(mission, requirement, release, showcase, front);
      var before := Complete(Fresh(mission, requirement, release, showcase), front);
      NormalStepToExecuting(before, op);
    }
  }

  lemma {:induction false} NormalStepToExecuting(db: Db, op: Operation)
    requires Sound(db) && Attended(db) && AllToExecuting(db) && Driven(op) && Normally(db, op)
    ensures AllToExecuting(Replay(db, PlanOf(db, op).writes))
  {
    forall i | 0 <= i < |PlanOf(db, op).writes| ensures ToExecuting(PlanOf(db, op).writes[i]) {
      if op.OpExecute? {
        ExecuteToExecuting(db, op.role, op.world, op.response, op.task, i);
      } else {
        OthersToExecuting(db, op, i);
      }
    }
    ToExecutingKeeps(db, PlanOf(db, op).writes);
  }

  /**
   When every creation of a task returned normally, completing the last open task brings the
   mission back into exactly the state it was suspended from, with the cursor where it was.
   */
  lemma {:induction false} ResumesWhereSuspended(
      mission: Id, requirement: bool, release: bool, showcase: bool, ops: seq<Operation>, id: Id, user: Id)
    requires forall op | op in ops :: Driven(op)
    requires AllNormal(Fresh(mission, requirement, release, showcase), ops)
    requires var db := Complete(Fresh(mission, requirement, release, showcase), ops);
      db.state.WaitingHuman? && CompleteTask(db, id, user).outcome.Done?
    ensures var db := Complete(Fresh(mission, requirement, release, showcase), ops);
      var r := Replay(db, CompleteTask(db, id, user).writes);
      && r.cursor == db.cursor
      && (!r.state.WaitingHuman? <==> OnlyOpen(db, id))
      && (OnlyOpen(db, id) ==> Some(r.state) == db.resume)
  {
    CompleteKeeps(mission, requirement, release, showcase, ops);
    NormalRunsToExecuting(mission, requirement, release, showcase, ops);
    CompletingResumes(Complete(Fresh(mission, requirement, release, showcase), ops), id, user);
  }

  // ------------------------------------------------------------------ where it goes wrong

  /** The task rows of r are those of db as far as resuming goes, and new ones record the state of db. */
  predicate Recorded(db: Db, r: Db) {
    forall id | id in r.tasks ::
      if id in db.tasks then r.tasks[id].resume == db.tasks[id].resume
      else r.tasks[id].resume.Verifying? <==> db.state.Verifying?
  }

  predicate Recording(db: Db, w: Write) {
    w.TaskSet? ==>
      if w.id in db.tasks then w.task.resume == db.tasks[w.id].resume
      else w.task.resume.Verifying? <==> db.state.Verifying?
  }

  lemma {:induction false} OneRecording(db: Db, mid: Db, w: Write)
    requires Recorded(db, mid) && Recording(db, w)
    ensures Recorded(db, Apply(mid, w))
  {
  }

  lemma {:induction false} RecordingKeeps(db: Db, writes: seq<Write>)
    requires forall i :: 0 <= i < |writes| ==> Recording(db, writes[i])
    ensures Recorded(db, Replay(db, writes))
  {
    if writes != [] {
      RecordingKeeps(db, writes[..|writes| - 1]);
      OneRecording(db, Replay(db, writes[..|writes| - 1]), writes[|writes| - 1]);
    }
  }

  lemma {:induction false} RunStepRecording(db: Db, w: World, row: Row, response: Response, taskId: Id, i: nat)
    requires db.state.Executing? && i < |RunStepPlan(db, w, row, response, taskId).writes|
    ensures Recording(db, RunStepPlan(db, w, row, response, taskId).writes[i])
  {
    InvokeLegal(db, w, Executor, row.def.capability.value, Some(row.id), response);
  }

  lemma {:induction false} ExecuteRecording(db: Db, role: Role, w: World, response: Response, taskId: Id, i: nat)
    requires i < |ExecuteCurrentStep(db, role, w, response, taskId).writes|
    ensures Recording(db, ExecuteCurrentStep(db, role, w, response, taskId).writes[i])
  {
    if i > 0 && CurrentStep(db).Some? {
      var row := CurrentStep(db).value;
      if i - 1 < |RunStepPlan(Apply(db, StepSet(row.id, Running)), w, row, response, taskId).writes| {
        RunStepRecording(Apply(db, StepSet(row.id, Running)), w, row, response, taskId, i - 1);
      }
    }
  }

  lemma {:induction false} TasksRecording(db: Db, op: Operation, i: nat)
    requires Sound(db) && i < |PlanOf(db, op).writes|
    requires op.OpCreateTask? || op.OpClaimTask? || op.OpCompleteTask?
    ensures Recording(db, PlanOf(db, op).writes[i])
  {
  }

  lemma {:induction false} OthersRecording(db: Db, op: Operation, i: nat)
    requires Sound(db) && Driven(op) && !op.OpExecute? && i < |PlanOf(db, op).writes|
    ensures Recording(db, PlanOf(db, op).writes[i])
  {
    if op.OpCreateTask? || op.OpClaimTask? || op.OpCompleteTask? {
      TasksRecording(db, op, i);
    }
  }

  lemma {:induction false} StepRecords(db: Db, step: Step)
    requires Sound(db) && Driven(step.op)
    ensures Recorded(db, After(db, step))
  {
    var kept := Take(PlanOf(db, step.op).writes, step.survives);
    forall i | 0 <= i < |kept| ensures Recording(db, kept[i]) {
      if step.op.OpExecute? {
        ExecuteRecording(db, step.op.role, step.op.world, step.op.response, step.op.task, i);
      } else {
        OthersRecording(db, step.op, i);
      }
    }
    RecordingKeeps(db, kept);
  }

  /** The state of the mission when the task came on record. */
  function CreatedIn(db: Db, steps: seq<Step>, id: Id): (r: Option<MissionState>) {
    if steps == [] then None
    else
      var front := steps[..|steps| - 1];
      if id in Run(db, front).tasks then CreatedIn(db, front, id)
      else if id in Run(db, steps).tasks then Some(Run(db, front).state)
      else None
  }

  lemma {:induction false} RecordsCreation(mission: Id, requirement: bool, release: bool, showcase: bool,
      steps: seq<Step>, id: Id)
    requires forall step | step in steps :: Driven(step.op)
    ensures var db := Fresh(mission, requirement, release, showcase);
      id in Run(db, steps).tasks ==>
        (Run(db, steps).tasks[id].resume.Verifying? <==> CreatedIn(db, steps, id) == Some(Verifying))
  {
    if steps != [] {
      var front, last := steps[..|steps| - 1], steps[|steps| - 1];
      assert forall step | step in front :: step in steps;
      assert last in steps;
      var db := Fresh(mission, requirement, release, showcase);
      RecordsCreation(mission, requirement, release, showcase, front, id);
      RunSound(mission, requirement, release, showcase, front);
      StepRecords(Run(db, front), last);
      if id in Run(db, front).tasks {
        TaskRemains(Run(db, front), Take(PlanOf(Run(db, front), last.op).writes, last.survives), id);
      }
    }
  }

  lemma {:induction false} TaskRemains(db: Db, writes: seq<Write>, id: Id)
    requires id in db.tasks
    ensures id in Replay(db, writes).tasks
  {
    if writes != [] {
      TaskRemains(db, writes[..|writes| - 1], id);
      OneTasksStay(Replay(db, writes[..|writes| - 1]), writes[|writes| - 1]);
    }
  }

  /**
   Over any run, crashes included: completing the last open task brings the mission back into
   another state than the one it was suspended from exactly when that task was created, however
   that ended, while the mission was VERIFYING.
   */
  lemma {:induction false} OrphanMisdirects(
      mission: Id, requirement: bool, release: bool, showcase: bool, steps: seq<Step>, id: Id, user: Id)
    requires forall step | step in steps :: Driven(step.op)
    requires var db := Run(Fresh(mission, requirement, release, showcase), steps);
      db.state.WaitingHuman? && OnlyOpen(db, id) && CompleteTask(db, id, user).outcome.Done?
    ensures var db := Run(Fresh(mission, requirement, release, showcase), steps);
      Some(Replay(db, CompleteTask(db, id, user).writes).state) != db.resume <==>
      CreatedIn(Fresh(mission, requirement, release, showcase), steps, id) == Some(Verifying)
  {
    RunSound(mission, requirement, release, showcase, steps);
    RecordsCreation(mission, requirement, release, showcase, steps, id);
    CompletingResumes(Run(Fresh(mission, requirement, release, showcase), steps), id, user);
  }

  function AfterOp(db: Db, op: Operation): (r: Db) {
    Replay(db, PlanOf(db, op).writes)
  }

  function Following(db: Db): (r: Option<Row>)
    requires CurrentStep(db).Some?
  {
    NextRow(db.rows, CurrentStep(db).value.version, CurrentStep(db).value.ordinal)
  }

  lemma {:induction false} EvaluationContinues(db: Db)
    requires db.state.Verifying? && CurrentStep(db).Some? && Following(db).Some?
    ensures AfterOp(db, OpEvaluate(Evaluator, Some(VerdictPass))) ==
            db.(state := Executing, cursor := Some(Following(db).value.id),
              rows := SetStatus(db.rows, CurrentStep(db).value.id, Pass))
  {
    ReplayOne(db, EvaluateCurrentStep(db, Evaluator, Some(VerdictPass)).writes[0]);
  }

  lemma {:induction false} ExecutionSuspends(db: Db, id: Id)
    requires db.state.Executing? && id !in db.tasks
    ensures AfterOp(db, OpCreateTask(id, true, None, None)) ==
            db.(state := WaitingHuman, resume := Some(Executing),
                tasks := db.tasks[id := HumanTask(None, None, TaskWaiting, Executing)])
  {
    var insert := TaskSet(id, HumanTask(None, None, TaskWaiting, Executing));
    ReplayCons(db, insert, [StateSet(WaitingHuman, Some(Executing))]);
    ReplayOne(Apply(db, insert), StateSet(WaitingHuman, Some(Executing)));
  }

  lemma {:induction false} OrphanSuspends(db: Db, orphan: Id, second: Id)
    requires Sound(db) && db.state.Verifying? && !AnyOpen(db) && CurrentStep(db).Some? && Following(db).Some?
    requires orphan !in db.tasks && second !in db.tasks && orphan != second
    ensures var s1 := AfterOp(db, OpCreateTask(orphan, true, None, None));
      var s2 := AfterOp(s1, OpEvaluate(Evaluator, Some(VerdictPass)));
      AfterOp(s2, OpCreateTask(second, true, None, None)) == TwoWaiting(db, orphan, second)
  {
    RejectedCreationLeavesTask(db, orphan, None, None);
    var s1 := AfterOp(db, OpCreateTask(orphan, true, None, None));
    EvaluationContinues(s1);
    ExecutionSuspends(AfterOp(s1, OpEvaluate(Evaluator, Some(VerdictPass))), second);
  }

  /** Both tasks are open, the next step is suspended. */
  function TwoWaiting(db: Db, orphan: Id, second: Id): (r: Db)
    requires CurrentStep(db).Some? && Following(db).Some?
  {
    var waiting := HumanTask(None, None, TaskWaiting, Executing);
    db.(state := WaitingHuman, resume := Some(Executing), cursor := Some(Following(db).value.id),
        rows := SetStatus(db.rows, CurrentStep(db).value.id, Pass),
        tasks := db.tasks[orphan := waiting.(resume := Verifying)][second := waiting])
  }

  lemma {:induction false} TwoWaitingPair(db: Db, orphan: Id, second: Id)
    requires Sound(db) && !AnyOpen(db) && CurrentStep(db).Some? && Following(db).Some?
    requires orphan !in db.tasks && second !in db.tasks && orphan != second
    ensures Sound(TwoWaiting(db, orphan, second)) && OpenPair(TwoWaiting(db, orphan, second), orphan, second)
  {
  }

  /**
   Such a run: a task is asked for while a step is being verified, which is refused; the step
   passes; a second task suspends the next step. Completing both tasks, the refused one last,
   puts the mission into VERIFYING, so the next step is judged without having been executed.
   */
  lemma {:induction false} OrphanRun(db: Db, orphan: Id, second: Id, user: Id)
    requires Sound(db) && db.state.Verifying? && !AnyOpen(db) && CurrentStep(db).Some? && Following(db).Some?
    requires orphan !in db.tasks && second !in db.tasks && orphan != second
    ensures var s1 := AfterOp(db, OpCreateTask(orphan, true, None, None));
      var s2 := AfterOp(s1, OpEvaluate(Evaluator, Some(VerdictPass)));
      var s3 := AfterOp(s2, OpCreateTask(second, true, None, None));
      var s4 := AfterOp(s3, OpCompleteTask(second, user));
      var s5 := AfterOp(s4, OpCompleteTask(orphan, user));
      && s3.state.WaitingHuman? && s3.resume == Some(Executing) && s5.state.Verifying?
      && s5.cursor == Some(Following(db).value.id) && s5.rows == SetStatus(db.rows, CurrentStep(db).value.id, Pass)
  {
    OrphanSuspends(db, orphan, second);
    TwoWaitingPair(db, orphan, second);
    BothComplete(TwoWaiting(db, orphan, second), orphan, second, user);
  }

  predicate OpenPair(db: Db, orphan: Id, second: Id) {
    && orphan in db.tasks && second in db.tasks && orphan != second
    && db.tasks[orphan].assignee.None? && db.tasks[second].assignee.None?
    && db.tasks[orphan].step.None? && db.tasks[second].step.None?
    && forall id | id in db.tasks :: OpenTask(db.tasks[id]) <==> id == orphan || id == second
  }

  lemma {:induction false} BothComplete(db: Db, orphan: Id, second: Id, user: Id)
    requires Sound(db) && db.state.WaitingHuman? && OpenPair(db, orphan, second)
    ensures var s4 := AfterOp(db, OpCompleteTask(second, user));
      var s5 := AfterOp(s4, OpCompleteTask(orphan, user));
      s5.state == db.tasks[orphan].resume && s5.cursor == db.cursor && s5.rows == db.rows
  {
    FirstOfTwo(db, orphan, second, user);
    LastOfOne(AfterOp(db, OpCompleteTask(second, user)), orphan, user);
  }

  lemma {:induction false} FirstOfTwo(db: Db, orphan: Id, second: Id, user: Id)
    requires Sound(db) && db.state.WaitingHuman? && OpenPair(db, orphan, second)
    ensures var r := AfterOp(db, OpCompleteTask(second, user));
      && Sound(r) && r.state.WaitingHuman? && r.cursor == db.cursor && r.rows == db.rows
      && OnlyOpen(r, orphan) && r.tasks[orphan] == db.tasks[orphan]
  {
    ClosingLast(db, second, Closed(db.tasks[second], user));
    CompletingIs(db, second, user);
  }

  lemma {:induction false} LastOfOne(db: Db, id: Id, user: Id)
    requires Sound(db) && db.state.WaitingHuman? && OnlyOpen(db, id)
    requires db.tasks[id].assignee.None? && db.tasks[id].step.None?
    ensures var r := AfterOp(db, OpCompleteTask(id, user));
      r.state == db.tasks[id].resume && r.cursor == db.cursor && r.rows == db.rows
  {
    ClosingLast(db, id, Closed(db.tasks[id], user));
    CompletingIs(db, id, user);
  }

  /** How such a task comes about: the row is committed, then the suspension is refused. */
  lemma {:induction false} RejectedCreationLeavesTask(db: Db, id: Id, step: Option<Id>, assignee: Option<Id>)
    requires db.state.Verifying? && id !in db.tasks
    ensures var plan := CreateTask(db, id, true, step, assignee);
      var r := Replay(db, plan.writes);
      && plan.outcome == Raised(InvalidTransition)
      && r == db.(tasks := db.tasks[id := HumanTask(step, assignee, TaskWaiting, Verifying)])
  {
    ReplayOne(db, CreateTask(db, id, true, step, assignee).writes[0]);
  }

  /**
   Dying while the last open task of a suspended mission is completed leaves the mission waiting
   with nobody to wait for, exactly when the task's row was committed and the move was not.
   */
  lemma {:induction false} CrashStrands(db: Db, id: Id, user: Id, k: nat)
    requires Sound(db) && db.state.WaitingHuman? && OnlyOpen(db, id) && CompleteTask(db, id, user).outcome.Done?
    requires k <= |CompleteTask(db, id, user).writes|
    ensures var writes := CompleteTask(db, id, user).writes;
      var r := Replay(db, writes[..k]);
      r.state.WaitingHuman? && !AnyOpen(r) <==> 0 < k < |writes|
  {
    var writes := CompleteTask(db, id, user).writes;
    var closed := db.tasks[id].(status := TaskDone, assignee := Some(user));
    ClosingLast(db, id, closed);
    if k == |writes| {
      assert writes[..k] == writes;
      CompletingResumes(db, id, user);
    } else if k == 0 {
      assert writes[..0] == [];
    } else {
      StrandedPrefix(db, id, user, k);
    }
  }

  lemma {:induction false} StrandedPrefix(db: Db, id: Id, user: Id, k: nat)
    requires Sound(db) && db.state.WaitingHuman? && OnlyOpen(db, id) && CompleteTask(db, id, user).outcome.Done?
    requires 0 < k < |CompleteTask(db, id, user).writes|
    ensures var r := Replay(db, CompleteTask(db, id, user).writes[..k]);
      r.state.WaitingHuman? && !AnyOpen(r)
  {
    var writes := CompleteTask(db, id, user).writes;
    var closed := db.tasks[id].(status := TaskDone, assignee := Some(user));
    var mid := Apply(db, TaskSet(id, closed));
    ClosingLast(db, id, closed);
    ReplayOne(db, TaskSet(id, closed));
    if k == 1 {
      assert writes[..1] == [TaskSet(id, closed)];
    } else {
      assert writes[..2] == [TaskSet(id, closed)] + [writes[1]];
      ReplayCons(db, TaskSet(id, closed), [writes[1]]);
      ReplayOne(mid, writes[1]);
    }
  }
}

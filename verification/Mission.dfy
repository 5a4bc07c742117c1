/**
 One test mission: its row, the rows of its plan versions, its human tasks and gates. Each
 operation is described by the transactions it commits, in order, and how it ends; a process
 that dies during an operation leaves a prefix of them.
 */
module Mission {
  import opened Prelude
  import opened Json
  import opened ContractMatch

  type Id = string

  datatype MissionState =
    | Draft | Discovering | TruthSync | Scoping | WaitingH1 | Planning | WaitingH2 | Preflight | WaitingH3
    | Executing | WaitingHuman | Verifying | WaitingH4 | Completed | Blocked | Aborted

  function AllowedTransitions(from: MissionState): (r: set<MissionState>) {
    match from
    case Draft => {Discovering, TruthSync, Scoping, Aborted}
    case Discovering => {TruthSync, Scoping, Blocked, Aborted}
    case TruthSync => {Scoping, Blocked, Aborted}
    case Scoping => {WaitingH1, Planning, Blocked, Aborted}
    case WaitingH1 => {Planning, Blocked, Aborted}
    case Planning => {WaitingH2, Preflight, Blocked, Aborted}
    case WaitingH2 => {Preflight, Planning, Blocked, Aborted}
    case Preflight => {WaitingH3, Blocked, Aborted}
    case WaitingH3 => {Executing, Preflight, Blocked, Aborted}
    case Executing => {WaitingHuman, Verifying, Blocked, Aborted}
    case WaitingHuman => {Executing, Verifying, Blocked, Aborted}
    case Verifying => {Executing, WaitingH4, Blocked, Aborted}
    case WaitingH4 => {Completed, Verifying, Blocked, Aborted}
    case Blocked => {Discovering, TruthSync, Scoping, Planning, Preflight, Executing, Verifying, Aborted}
    case Completed | Aborted => {}
  }

  datatype Role =
    | Director | Planner | Executor | Evaluator | Diagnosis | Knowledge | Scheduler | HumanUser | System | Unknown

  datatype StepStatus = Pending | Ready | Running | Executed | Pass | Fail | StepBlocked | StepWaiting

  /** What a plan freezes about a step. */
  datatype StepDef = StepDef(capability: Option<Id>, role: Role, input: Value, expected: Value)

  datatype Row = Row(id: Id, version: nat, ordinal: nat, def: StepDef, status: StepStatus, output: Option<Value>)

  datatype TaskStatus = TaskWaiting | TaskClaimed | TaskDone

  datatype HumanTask = HumanTask(step: Option<Id>, assignee: Option<Id>, status: TaskStatus, resume: MissionState)

  datatype GateType = H1 | H2 | H3 | H4

  datatype Decision = Approve | Rework | Reject | AcceptRisk

  datatype Gate = Gate(passed: bool, decision: Option<Decision>)

  datatype Audited = Allowed | Denied | Failed

  datatype AuditRow = AuditRow(step: Option<Id>, role: Role, capability: Id, decision: Audited)

  /** `mission`, `requirement`, `release` and `showcase` never change. */
  datatype Db = Db(
    mission: Id, requirement: bool, release: bool, showcase: bool,
    state: MissionState, version: nat, cursor: Option<Id>, resume: Option<MissionState>,
    environment: Option<Id>, fingerprint: Option<Id>,
    rows: seq<Row>, tasks: map<Id, HumanTask>, gates: map<GateType, Gate>, audit: seq<AuditRow>)

  /** A mission that was just created. */
  function Fresh(mission: Id, requirement: bool, release: bool, showcase: bool): (db: Db) {
    Db(mission, requirement, release, showcase, Draft, 0, None, None, None, None, [], map[], map[], [])
  }

  datatype Capability = Capability(roles: set<Role>, gate: Option<GateType>)

  /** What the operations read from outside the mission's own rows. */
  datatype World = World(
    registry: map<Id, Capability>, baselineOk: bool, baseline: Option<Id>, unresolved: bool, plainSecret: bool)

  datatype Response = Returned(value: Value) | FileMissing | PermissionDenied | OtherError

  datatype Verdict = VerdictPass | VerdictFail | VerdictBlocked | VerdictInvalid

  // --------------------------------------------------------------------- writes

  datatype Write =
    | StateSet(state: MissionState, resume: Option<MissionState>)
    | PlanFrozen(plan: seq<(Id, StepDef)>)
    | StepSet(step: Id, status: StepStatus)
    | StepOutput(step: Id, output: Value)
    | StepJudged(step: Id, verdict: Verdict, next: Option<Id>)
    | PreflightStored(ok: bool, environment: Id, fingerprint: Option<Id>)
    | GateSet(gate: GateType, value: Gate)
    | TaskSet(id: Id, task: HumanTask)
    | AuditAppended(row: AuditRow)

  function SetStatus(rows: seq<Row>, id: Id, status: StepStatus): (r: seq<Row>)
    ensures |r| == |rows|
    ensures forall i :: 0 <= i < |rows| ==> r[i] == if rows[i].id == id then rows[i].(status := status) else rows[i]
  {
    seq(|rows|, i requires 0 <= i < |rows| => if rows[i].id == id then rows[i].(status := status) else rows[i])
  }

  function SetOutput(rows: seq<Row>, id: Id, output: Value): (r: seq<Row>)
    ensures |r| == |rows|
    ensures forall i :: 0 <= i < |rows| ==>
      r[i] == if rows[i].id == id then rows[i].(status := Executed, output := Some(output)) else rows[i]
  {
    seq(|rows|, i requires 0 <= i < |rows| =>
      if rows[i].id == id then rows[i].(status := Executed, output := Some(output)) else rows[i])
  }

  /** The rows of a new plan version: ordinals 1, 2, 3, ..., nothing done yet. */
  function NewRows(version: nat, plan: seq<(Id, StepDef)>): (r: seq<Row>)
    ensures |r| == |plan|
    ensures forall i :: 0 <= i < |plan| ==> r[i] == Row(plan[i].0, version, i + 1, plan[i].1, Pending, None)
  {
    seq(|plan|, i requires 0 <= i < |plan| => Row(plan[i].0, version, i + 1, plan[i].1, Pending, None))
  }

  function StatusOf(verdict: Verdict): (r: StepStatus) {
    match verdict
    case VerdictPass => Pass
    case VerdictFail => Fail
    case _ => StepBlocked
  }

  function Apply(db: Db, w: Write): (r: Db) {
    match w
    case StateSet(state, resume) => db.(state := state, resume := resume)
    case PlanFrozen(plan) =>
      db.(version := db.version + 1, rows := db.rows + NewRows(db.version + 1, plan),
          cursor := if plan == [] then None else Some(plan[0].0))
    case StepSet(step, status) => db.(rows := SetStatus(db.rows, step, status))
    case StepOutput(step, output) => db.(rows := SetOutput(db.rows, step, output), state := Verifying)
    case StepJudged(step, verdict, next) =>
      var judged := db.(rows := SetStatus(db.rows, step, StatusOf(verdict)));
      if verdict.VerdictPass? then judged.(cursor := next, state := if next.Some? then Executing else WaitingH4)
      else judged.(state := Blocked)
    case PreflightStored(ok, environment, fingerprint) =>
      db.(state := if ok then WaitingH3 else Blocked, environment := Some(environment), fingerprint := fingerprint)
    case GateSet(gate, value) => db.(gates := db.gates[gate := value])
    case TaskSet(id, task) => db.(tasks := db.tasks[id := task])
    case AuditAppended(row) => db.(audit := db.audit + [row])
  }

  function Replay(db: Db, writes: seq<Write>): (r: Db) {
    if writes == [] then db else Apply(Replay(db, writes[..|writes| - 1]), writes[|writes| - 1])
  }

  // -------------------------------------------------------------------- queries

  function FindRow(rows: seq<Row>, id: Id): (r: Option<Row>)
    ensures r.Some? ==> r.value in rows && r.value.id == id
    ensures r.None? ==> forall i :: 0 <= i < |rows| ==> rows[i].id != id
  {
    if rows == [] then None else if rows[0].id == id then Some(rows[0]) else FindRow(rows[1..], id)
  }

  function CurrentStep(db: Db): (r: Option<Row>) {
    if db.cursor.None? then None else FindRow(db.rows, db.cursor.value)
  }

  /** The row with the smallest ordinal above the given one. */
  function NextRow(rows: seq<Row>, version: nat, ordinal: nat): (r: Option<Row>)
    ensures r.Some? ==> r.value in rows && r.value.version == version && r.value.ordinal > ordinal
    ensures forall i :: 0 <= i < |rows| && rows[i].version == version && rows[i].ordinal > ordinal ==>
      r.Some? && r.value.ordinal <= rows[i].ordinal
  {
    if rows == [] then None
    else
      var last, best := rows[|rows| - 1], NextRow(rows[..|rows| - 1], version, ordinal);
      if last.version == version && last.ordinal > ordinal && (best.None? || last.ordinal < best.value.ordinal)
      then Some(last) else best
  }

  predicate OpenTask(t: HumanTask) {
    !t.status.TaskDone?
  }

  predicate AnyOpen(db: Db) {
    exists id | id in db.tasks :: OpenTask(db.tasks[id])
  }

  predicate GateApproved(db: Db, gate: GateType) {
    && db.requirement && gate in db.gates && db.gates[gate].passed
    && db.gates[gate].decision in {Some(Approve), Some(AcceptRisk)}
  }

  function ReviewedGate(decision: Decision): (g: Gate) {
    Gate(decision.Approve? || decision.AcceptRisk?, Some(decision))
  }

  // ----------------------------------------------------------------- operations

  datatype Failure =
    | NotPermitted | WrongState | InvalidTransition | UniqueViolation | NotNullViolation | NotClaimable
    | Unauthorized | CapabilityFailed | InvalidValue | TaskNotFound | TaskNotOpen | AssignedToAnother

  datatype Status = Normal | NoPendingStep | ChangedBaseline | WaitsForHuman | StepExecuted | Judged(verdict: Verdict)

  datatype Outcome = Done(status: Status) | Raised(failure: Failure)

  datatype Plan = Plan(writes: seq<Write>, outcome: Outcome)

  /** The table check, and which state a suspended mission will resume into. */
  function MovePlan(db: Db, to: MissionState, force: bool): (plan: Plan) {
    if !force && to !in AllowedTransitions(db.state) then Plan([], Raised(InvalidTransition))
    else
      var resume :=
        if to.WaitingHuman? then Some(db.state)
        else if db.state.WaitingHuman? && (to.Executing? || to.Verifying?) then None
        else db.resume;
      Plan([StateSet(to, resume)], Done(Normal))
  }

  datatype PlanStep = PlanStep(id: Option<Id>, def: StepDef)

  function Padded(ordinal: nat): (text: string) {
    var digits := Decimal(ordinal);
    if |digits| == 1 then "00" + digits else if |digits| == 2 then "0" + digits else digits
  }

  function DefaultStepId(mission: Id, ordinal: nat): (id: Id) {
    mission + "-S" + Padded(ordinal)
  }

  /** Python's `value or {}`. */
  function OrEmpty(v: Value): (r: Value) {
    if Truthy(v) then v else Obj([])
  }

  /** What is stored of a step: a falsy input or expected value becomes the empty object. */
  function Frozen(def: StepDef): (r: StepDef) {
    def.(input := OrEmpty(def.input), expected := OrEmpty(def.expected))
  }

  /** The ids the steps get: the caller's, or one derived from the mission and the position. */
  function Numbered(mission: Id, steps: seq<PlanStep>): (plan: seq<(Id, StepDef)>)
    ensures |plan| == |steps|
  {
    seq(|steps|, i requires 0 <= i < |steps| =>
      (if Given(steps[i].id) then steps[i].id.value else DefaultStepId(mission, i + 1), Frozen(steps[i].def)))
  }

  /** Step ids are unique over all plans of all missions; `taken` are those of other missions. */
  predicate IdsFree(db: Db, plan: seq<(Id, StepDef)>, taken: set<Id>) {
    && (forall i, j :: 0 <= i < j < |plan| ==> plan[i].0 != plan[j].0)
    && (forall i :: 0 <= i < |plan| ==> FindRow(db.rows, plan[i].0).None? && plan[i].0 !in taken)
  }

  /** Python's `if text`: there is one and it is not empty. */
  predicate Given(text: Option<Id>) {
    text.Some? && text.value != ""
  }

  function SubmitPlan(db: Db, role: Role, steps: seq<PlanStep>, taken: set<Id>): (plan: Plan) {
    if !role.Planner? then Plan([], Raised(NotPermitted))
    else if db.state !in {Planning, WaitingH2, Blocked} then Plan([], Raised(WrongState))
    else if !IdsFree(db, Numbered(db.mission, steps), taken) then Plan([], Raised(UniqueViolation))
    else Plan([PlanFrozen(Numbered(db.mission, steps))], Done(Normal))
  }

  function RequestReplan(db: Db, role: Role): (plan: Plan) {
    if !role.Director? && !role.HumanUser? then Plan([], Raised(NotPermitted))
    else if db.state.Completed? || db.state.Aborted? then Plan([], Raised(WrongState))
    else Plan([StateSet(Planning, db.resume)], Done(Normal))
  }

  function ClaimStep(db: Db, role: Role): (plan: Plan) {
    if !role.Executor? then Plan([], Raised(NotPermitted))
    else if !db.state.Executing? then Plan([], Raised(WrongState))
    else
      match CurrentStep(db)
      case None => Plan([], Done(NoPendingStep))
      case Some(row) =>
        if row.def.role != role then Plan([], Raised(NotPermitted))
        else if row.status !in {Pending, Ready, StepBlocked} then Plan([], Raised(NotClaimable))
        else Plan([StepSet(row.id, Running)], Done(Normal))
  }

  predicate PreflightOk(db: Db, w: World) {
    && db.requirement && db.release && w.baselineOk && !w.unresolved
    && H1 in db.gates && db.gates[H1].passed
    && (db.showcase ==> H2 in db.gates && db.gates[H2].passed)
    && (forall i :: 0 <= i < |db.rows| && db.rows[i].version == db.version && Given(db.rows[i].def.capability) ==>
          db.rows[i].def.capability.value in w.registry)
    && !w.plainSecret
  }

  /** Writes WAITING_H3 or BLOCKED whatever the mission was doing before. */
  function EvaluatePreflight(db: Db, environment: Id, w: World): (plan: Plan) {
    Plan([PreflightStored(PreflightOk(db, w), environment, if db.requirement && db.release then w.baseline else None)],
      Done(Normal))
  }

  /** The gate is recorded first; the transition may still be rejected. */
  function AuthorizeExecution(db: Db, decision: Decision): (plan: Plan) {
    var gate := GateSet(H3, ReviewedGate(decision));
    if !ReviewedGate(decision).passed then Plan([gate], Done(Normal))
    else
      var move := MovePlan(Apply(db, gate), Executing, false);
      Plan([gate] + move.writes, move.outcome)
  }

  predicate BaselineChanged(db: Db, w: World) {
    && db.requirement && db.release && Given(db.environment) && Given(db.fingerprint)
    && (w.baseline != db.fingerprint || !w.baselineOk)
  }

  /** Why an invocation inside the mission is refused, if it is. */
  function Refusal(db: Db, w: World, role: Role, capability: Id, step: Option<Id>): (r: bool) {
    || capability !in w.registry
    || role !in w.registry[capability].roles
    || (role.Executor? &&
        (|| !db.state.Executing?
         || CurrentStep(db).None?
         || (Given(step) && step.value != CurrentStep(db).value.id)
         || (Given(CurrentStep(db).value.def.capability) && CurrentStep(db).value.def.capability.value != capability)))
    || (w.registry[capability].gate.Some? && !GateApproved(db, w.registry[capability].gate.value))
  }

  /** Authorize, run, and record the decision. */
  function InvokePlan(db: Db, w: World, role: Role, capability: Id, step: Option<Id>,
      response: Response): (plan: Plan) {
    if Refusal(db, w, role, capability, step) then
      Plan([AuditAppended(AuditRow(step, role, capability, Denied))], Raised(Unauthorized))
    else if !response.Returned? then
      Plan([AuditAppended(AuditRow(step, role, capability, Failed))], Raised(CapabilityFailed))
    else
      Plan([AuditAppended(AuditRow(step, role, capability, Allowed))], Done(Normal))
  }

  /** The record of a successful invocation, which becomes the step's output. */
  function InvocationResult(capability: Id, value: Value): (v: Value) {
    var ok := !(value.Obj? && Has(value.fields, "ok") && Lookup(value.fields, "ok") == Bool(false));
    Obj([("ok", Bool(ok)), ("capability_id", Str(capability)), ("actor_role", Str("EXECUTOR")), ("result", value)])
  }

  function CreateTask(db: Db, id: Id, validType: bool, step: Option<Id>, assignee: Option<Id>): (plan: Plan) {
    if !validType then Plan([], Raised(InvalidValue))
    else if id in db.tasks then Plan([], Raised(UniqueViolation))
    else
      var resume :=
        if db.state.Executing? || db.state.Verifying? then db.state
        else if db.resume.Some? then db.resume.value
        else Executing;
      var insert := TaskSet(id, HumanTask(step, assignee, TaskWaiting, resume));
      if db.state.WaitingHuman? then Plan([insert], Done(Normal))
      else
        var move := MovePlan(Apply(db, insert), WaitingHuman, false);
        Plan([insert] + move.writes, move.outcome)
  }

  /** The capability has no adapter: ask a human to configure it and park the step. */
  function ParkPlan(db: Db, row: Row, taskId: Id): (plan: Plan) {
    var task := CreateTask(db, taskId, true, Some(row.id), None);
    if task.outcome.Raised? then task
    else Plan(task.writes + [StepSet(row.id, StepWaiting)], Done(WaitsForHuman))
  }

  function RunStepPlan(db: Db, w: World, row: Row, response: Response, taskId: Id): (plan: Plan) {
    if row.def.capability.None? then Plan([], Raised(NotNullViolation))
    else
      var invoke := InvokePlan(db, w, Executor, row.def.capability.value, Some(row.id), response);
      if invoke.outcome.Done? then
        Plan(invoke.writes + [StepOutput(row.id, InvocationResult(row.def.capability.value, response.value))],
          Done(StepExecuted))
      else if invoke.outcome == Raised(CapabilityFailed) && response.FileMissing? then
        var park := ParkPlan(Replay(db, invoke.writes), row, taskId);
        Plan(invoke.writes + park.writes, park.outcome)
      else invoke
  }

  function ExecuteCurrentStep(db: Db, role: Role, w: World, response: Response, taskId: Id): (plan: Plan) {
    if !role.Executor? then Plan([], Raised(NotPermitted))
    else if !db.state.Executing? then Plan([], Raised(WrongState))
    else if BaselineChanged(db, w) then
      Plan([GateSet(H3, Gate(false, Some(Rework))), StateSet(Blocked, db.resume)], Done(ChangedBaseline))
    else
      match CurrentStep(db)
      case None => var move := MovePlan(db, WaitingH4, false); Plan(move.writes, if move.outcome.Done?
        then Done(NoPendingStep) else move.outcome)
      case Some(row) =>
        var start := StepSet(row.id, Running);
        var run := RunStepPlan(Apply(db, start), w, row, response, taskId);
        Plan([start] + run.writes, run.outcome)
  }

  function OutputOf(row: Row): (v: Value) {
    if row.output.Some? then row.output.value else Obj([])
  }

  function VerdictOf(row: Row, override: Option<Verdict>): (v: Verdict) {
    if override.Some? then override.value
    else if Match(row.def.expected, OutputOf(row)) then VerdictPass
    else VerdictFail
  }

  function EvaluateCurrentStep(db: Db, role: Role, override: Option<Verdict>): (plan: Plan) {
    if !role.Evaluator? then Plan([], Raised(NotPermitted))
    else if !db.state.Verifying? then Plan([], Raised(WrongState))
    else
      match CurrentStep(db)
      case None => var move := MovePlan(db, WaitingH4, false); Plan(move.writes, if move.outcome.Done?
        then Done(NoPendingStep) else move.outcome)
      case Some(row) =>
        var verdict := VerdictOf(row, override);
        if verdict.VerdictInvalid? then Plan([], Raised(InvalidValue))
        else
          var next := NextRow(db.rows, row.version, row.ordinal);
          Plan([StepJudged(row.id, verdict, if next.Some? then Some(next.value.id) else None)], Done(Judged(verdict)))
  }

  function FinalizeMission(db: Db, decision: Decision): (plan: Plan) {
    if !db.state.WaitingH4? then Plan([], Raised(WrongState))
    else
      var gate := GateSet(H4, ReviewedGate(decision));
      var move := MovePlan(Apply(db, gate), if ReviewedGate(decision).passed then Completed else Blocked, false);
      Plan([gate] + move.writes, move.outcome)
  }

  function ClaimTask(db: Db, id: Id, user: Id): (plan: Plan) {
    if id !in db.tasks then Plan([], Raised(TaskNotFound))
    else if !db.tasks[id].status.TaskWaiting? then Plan([], Raised(TaskNotOpen))
    else Plan([TaskSet(id, db.tasks[id].(status := TaskClaimed, assignee := Some(user)))], Done(Normal))
  }

  /** A parked step of the task becomes ready again. */
  function ReadyWrites(db: Db, task: HumanTask): (writes: seq<Write>) {
    if task.step.Some? && FindRow(db.rows, task.step.value).Some?
       && FindRow(db.rows, task.step.value).value.status.StepWaiting?
    then [StepSet(task.step.value, Ready)] else []
  }

  /** After the task is closed: wake its parked step, and resume the mission if nothing else is open. */
  function ResumePlan(db: Db, task: HumanTask): (plan: Plan) {
    var ready := ReadyWrites(db, task);
    if AnyOpen(db) || !db.state.WaitingHuman? then Plan(ready, Done(Normal))
    else
      var move := MovePlan(Replay(db, ready), task.resume, false);
      Plan(ready + move.writes, move.outcome)
  }

  function CompleteTask(db: Db, id: Id, user: Id): (plan: Plan) {
    if id !in db.tasks then Plan([], Raised(TaskNotFound))
    else if db.tasks[id].status.TaskDone? then Plan([], Raised(TaskNotOpen))
    else if Given(db.tasks[id].assignee) && db.tasks[id].assignee.value != user then Plan([], Raised(AssignedToAnother))
    else
      var close := TaskSet(id, db.tasks[id].(status := TaskDone, assignee := Some(user)));
      var rest := ResumePlan(Apply(db, close), db.tasks[id]);
      Plan([close] + rest.writes, rest.outcome)
  }

  // ------------------------------------------------------------------ whole runs

  datatype Operation =
    | OpSubmitPlan(role: Role, steps: seq<PlanStep>, taken: set<Id>)
    | OpRequestReplan(role: Role)
    | OpClaimStep(role: Role)
    | OpPreflight(environment: Id, world: World)
    | OpAuthorize(decision: Decision)
    | OpSetGate(gate: GateType, value: Gate)
    | OpInvoke(role: Role, capability: Id, step: Option<Id>, world: World, response: Response)
    | OpExecute(role: Role, world: World, response: Response, task: Id)
    | OpEvaluate(role: Role, override: Option<Verdict>)
    | OpFinalize(decision: Decision)
    | OpCreateTask(id: Id, validType: bool, step: Option<Id>, assignee: Option<Id>)
    | OpClaimTask(id: Id, user: Id)
    | OpCompleteTask(id: Id, user: Id)
    | OpTransition(to: MissionState, force: bool)

  function PlanOf(db: Db, op: Operation): (plan: Plan) {
    match op
    case OpSubmitPlan(role, steps, taken) => SubmitPlan(db, role, steps, taken)
    case OpRequestReplan(role) => RequestReplan(db, role)
    case OpClaimStep(role) => ClaimStep(db, role)
    case OpPreflight(environment, world) => EvaluatePreflight(db, environment, world)
    case OpAuthorize(decision) => AuthorizeExecution(db, decision)
    case OpSetGate(gate, value) => Plan([GateSet(gate, value)], Done(Normal))
    case OpInvoke(role, capability, step, world, response) => InvokePlan(db, world, role, capability, step, response)
    case OpExecute(role, world, response, task) => ExecuteCurrentStep(db, role, world, response, task)
    case OpEvaluate(role, override) => EvaluateCurrentStep(db, role, override)
    case OpFinalize(decision) => FinalizeMission(db, decision)
    case OpCreateTask(id, validType, step, assignee) => CreateTask(db, id, validType, step, assignee)
    case OpClaimTask(id, user) => ClaimTask(db, id, user)
    case OpCompleteTask(id, user) => CompleteTask(db, id, user)
    case OpTransition(to, force) => MovePlan(db, to, force)
  }

  /** An operation that dies after `survives` commits; a large number means it does not. */
  datatype Step = Step(op: Operation, survives: nat)

  function Take(writes: seq<Write>, n: nat): (r: seq<Write>)
    ensures r <= writes
  {
    if n < |writes| then writes[..n] else writes
  }

  function After(db: Db, step: Step): (r: Db) {
    Replay(db, Take(PlanOf(db, step.op).writes, step.survives))
  }

  function Run(db: Db, steps: seq<Step>): (r: Db) {
    if steps == [] then db else After(Run(db, steps[..|steps| - 1]), steps[|steps| - 1])
  }
}

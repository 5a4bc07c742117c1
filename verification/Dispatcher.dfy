/**
 The G2 autonomous dispatcher. Each operation is described by its plan: the durable
 writes it makes, in order, and how it ends. A process that dies during an operation
 leaves a prefix of the plan's writes in the stream, and nothing else.
 */
module Dispatcher {
  import opened Prelude
  import opened EventStream

  const DEFAULT_WORKER_AGENT: Id := "aitest-executor"

  /**
   What the session provider does during one operation: whether its health probe answers,
   the session it creates (none when it fails), and whether its first and second context
   messages go through.
   */
  datatype Provider = Provider(healthy: bool, created: Option<Id>, sends: bool, sendsAgain: bool)

  datatype Verdict = Succeed | Fail | Unsupported

  datatype Status =
    | Dispatched | Recovered | RepairedByRotation | Rotated
    | PlanComplete | NothingReady | TaskClosed | Recorded

  datatype Failure =
    | PlanRequired | ProviderFailed | CommandRejected | BindingNotMade | AttemptNotFound
    | PredecessorNotFound | RotationIdentityConflict | SequenceMismatch | TaskNotFound
    | TaskNotActive | OutcomeUnsupported | AttemptMismatch | SessionMismatch | SessionNotActive

  datatype Outcome = Done(status: Status) | Raised(failure: Failure)

  datatype Plan = Plan(writes: seq<Fact>, outcome: Outcome)

  // ----------------------------------------------------------- session provider

  /** A provider hands out a session id the stream does not know yet, or fails. */
  function Created(s: State, p: Provider): (r: Option<Id>)
    ensures r.Some? ==> r.value !in s.sessions
  {
    if p.created.Some? && p.created.value !in s.sessions then p.created else None
  }

  predicate Working(s: State, p: Provider) {
    p.healthy && Created(s, p).Some? && p.sends && p.sendsAgain
  }

  // ------------------------------------------------------------------ provision

  /** Binds the logical agent of an attempt's lineage unless that was done before. */
  function BindPlan(s: State, a: Attempt, role: Id): (plan: Plan) {
    if Bound(s, a.root) then Plan([], Done(Recorded))
    else if a.root in s.refused then Plan([], Raised(BindingNotMade))
    else
      var bind := AgentBound(Binding(a.root, LogicalAgent(role, a.task), a.id, a.task, a.session));
      if Accepts(s, bind) then Plan([bind], Done(Recorded))
      else Plan([BindingRefused(a.root)], Raised(BindingNotMade))
  }

  /** The attempt a rotation of this lineage would create names the rotation. */
  function RotationKey(a: Attempt): (key: AttemptId) {
    AttemptId(a.task, a.ordinal + 1)
  }

  /** The transition of the predecessor session, unless an earlier try recorded it. */
  function PredecessorWrites(s: State, a: Attempt): (writes: seq<Fact>)
    requires a.session in s.sessions
  {
    var status := s.sessions[a.session].status;
    if RotationKey(a) in s.transitions || status.Closed? || status.Broken? then []
    else [SessionMoved(a.session, if status.Open? then Suspended else Closed, Some(RotationKey(a)))]
  }

  function RotatePlan(s: State, task: Id, p: Provider): (plan: Plan) {
    match Latest(s, task)
    case None => Plan([], Raised(AttemptNotFound))
    case Some(a) =>
      if a.session !in s.sessions then Plan([], Raised(PredecessorNotFound))
      else if Created(s, p).None? then Plan([], Raised(ProviderFailed))
      else if RotationKey(a) in s.openings then Plan([], Raised(RotationIdentityConflict))
      else if RotationKey(a) in s.transitions && s.transitions[RotationKey(a)] != s.head then
        Plan([], Raised(SequenceMismatch))
      else
        var successor := Created(s, p).value;
        var opening := PredecessorWrites(s, a) + [SuccessorOpened(successor, RotationKey(a))];
        var resume := AttemptResumed(task, successor, a.id);
        if !Accepts(Replay(s, opening), resume) then Plan(opening, Raised(CommandRejected))
        else Plan(opening + [resume], if p.sendsAgain then Done(Rotated) else Raised(ProviderFailed))
  }

  /** The newest session that is open and was opened for this task. */
  function OpenSessionFor(s: State, order: seq<Id>, task: Id): (r: Option<Id>) {
    if order == [] then None
    else
      var last := order[|order| - 1];
      if IsOpen(s, last) && s.sessions[last].task == Some(task) then Some(last)
      else OpenSessionFor(s, order[..|order| - 1], task)
  }

  /** The task already has an attempt: bind it if needed, then reach its session or rotate it. */
  function RepairPlan(s: State, a: Attempt, role: Id, p: Provider): (plan: Plan) {
    var known := a.session in s.sessions && s.sessions[a.session].agent.Some?;
    var bind := BindPlan(s, a, if known then s.sessions[a.session].agent.value else role);
    if bind.outcome.Raised? then bind
    else
      var bound := Replay(s, bind.writes);
      if IsOpen(bound, a.session) && p.sends then Plan(bind.writes, Done(Recovered))
      else
        var rotate := RotatePlan(bound, a.task, p);
        Plan(bind.writes + rotate.writes,
             if rotate.outcome.Done? then Done(RepairedByRotation) else rotate.outcome)
  }

  /** The first attempt of a task, as the launch records it. */
  function FirstAttempt(task: Id, session: Id): (a: Attempt) {
    Attempt(AttemptId(task, 1), task, session, None, AttemptId(task, 1), 1)
  }

  /** Start the first attempt in an open session, bind the agent, send the context. */
  function StartPlan(s: State, task: Id, session: Id, role: Id, p: Provider): (plan: Plan) {
    var start := AttemptStarted(task, session);
    if !Accepts(s, start) then Plan([], Raised(CommandRejected))
    else
      var bind := BindPlan(Apply(s, start), FirstAttempt(task, session), role);
      Plan([start] + bind.writes,
           if bind.outcome.Raised? then bind.outcome
           else if p.sends then Done(Dispatched)
           else Raised(ProviderFailed))
  }

  /** The session a launch runs in: one opened for the task earlier, else a new one. */
  function LaunchSession(s: State, task: Id, p: Provider): (r: Option<Id>) {
    if OpenSessionFor(s, s.sessionOrder, task).Some? then OpenSessionFor(s, s.sessionOrder, task) else Created(s, p)
  }

  function OpeningWrites(s: State, task: Id, role: Id, session: Id): (writes: seq<Fact>) {
    if OpenSessionFor(s, s.sessionOrder, task).Some? then [] else [SessionOpened(session, Some(task), Some(role))]
  }

  /** The task has no attempt yet: find or open its session, then start in it. */
  function LaunchPlan(s: State, task: Id, role: Id, p: Provider): (plan: Plan) {
    match LaunchSession(s, task, p)
    case None => Plan([], Raised(ProviderFailed))
    case Some(session) =>
      var opening := OpeningWrites(s, task, role, session);
      var start := StartPlan(Replay(s, opening), task, session, role, p);
      Plan(opening + start.writes, start.outcome)
  }

  function ProvisionPlan(s: State, task: Id, role: Id, p: Provider): (plan: Plan) {
    match Latest(s, task)
    case Some(a) => RepairPlan(s, a, role, p)
    case None => LaunchPlan(s, task, role, p)
  }

  // ------------------------------------------------------------------- dispatch

  predicate Running(s: State, task: Id) {
    ActiveNow(s, task) && !HasHistory(s, task)
  }

  predicate ResumeReady(s: State, task: Id) {
    ActiveNow(s, task) && HasHistory(s, task) && !WaitsForHuman(s, task)
  }

  function RunningTasks(s: State, order: seq<Id>): (r: seq<Id>) {
    if order == [] then []
    else RunningTasks(s, order[..|order| - 1]) +
         if Running(s, order[|order| - 1]) then [order[|order| - 1]] else []
  }

  function ResumeReadyTasks(s: State, order: seq<Id>): (r: seq<Id>) {
    if order == [] then []
    else ResumeReadyTasks(s, order[..|order| - 1]) +
         if ResumeReady(s, order[|order| - 1]) then [order[|order| - 1]] else []
  }

  /** The ACTIVE task that owns the runnable slot, if any. */
  function Target(s: State): (r: Option<Id>) {
    var running, ready := RunningTasks(s, s.taskOrder), ResumeReadyTasks(s, s.taskOrder);
    if running != [] then Some(running[0]) else if ready != [] then Some(ready[0]) else None
  }

  /** R1.2 marks the task READY: pending in the current revision, all it needs succeeded. */
  predicate ReadyNow(s: State, task: Id) {
    && task in s.tasks
    && s.tasks[task].state.Pending?
    && s.current == Some(s.tasks[task].revision)
    && forall n | n in s.tasks[task].needs :: n in s.tasks && s.tasks[n].state.Succeeded?
  }

  /** The serial policy takes at most one task from the readiness report. */
  function Selected(s: State, report: seq<Id>): (r: Option<Id>) {
    if report == [] then None
    else if ReadyNow(s, report[0]) then Some(report[0])
    else Selected(s, report[1..])
  }

  predicate PlanFinished(s: State) {
    && (exists t | t in s.tasks :: s.current == Some(s.tasks[t].revision))
    && (forall t | t in s.tasks :: s.current == Some(s.tasks[t].revision) ==> Terminal(s.tasks[t].state))
  }

  /** `report` lists candidates in the order of the readiness report. */
  function DispatchPlan(s: State, role: Id, report: seq<Id>, p: Provider): (plan: Plan) {
    if s.current.None? then Plan([], Raised(PlanRequired))
    else if Target(s).Some? then ProvisionPlan(s, Target(s).value, role, p)
    else if !p.healthy then Plan([], Raised(ProviderFailed))
    else if PlanFinished(s) then Plan([], Done(PlanComplete))
    else if Selected(s, report).None? then Plan([], Done(NothingReady))
    else
      var task := Selected(s, report).value;
      var provision := ProvisionPlan(Apply(s, TaskActivated(task)), task, role, p);
      Plan([TaskActivated(task)] + provision.writes, provision.outcome)
  }

  // -------------------------------------------------------- outcomes of a task

  function CompletePlan(s: State, task: Id, verdict: Verdict): (plan: Plan) {
    if verdict.Unsupported? then Plan([], Raised(OutcomeUnsupported))
    else if task !in s.tasks then Plan([], Raised(TaskNotFound))
    else if !s.tasks[task].state.Active? then Plan([], Raised(TaskNotActive))
    else
      var finish := TaskFinished(task, if verdict.Succeed? then Succeeded else Failed);
      var after := Apply(s, finish);
      var latest := Latest(after, task);
      if latest.Some? && latest.value.session in s.sessions
        && s.sessions[latest.value.session].status in {Open, Suspended}
      then Plan([finish, SessionMoved(latest.value.session, Closed, None)], Done(TaskClosed))
      else Plan([finish], Done(TaskClosed))
  }

  /** A report is refused unless it names the latest attempt and that attempt's live session. */
  function ReportCheck(s: State, task: Id, attempt: AttemptId, session: Id): (r: Option<Failure>) {
    match Latest(s, task)
    case None => Some(AttemptNotFound)
    case Some(a) =>
      if a.id != attempt then Some(AttemptMismatch)
      else if a.session != session then Some(SessionMismatch)
      else if session !in s.sessions || s.sessions[session].status !in {Open, Suspended} then Some(SessionNotActive)
      else None
  }

  function ReportPlan(s: State, task: Id, attempt: AttemptId, session: Id, verdict: Verdict,
                      report: seq<Id>, p: Provider): (plan: Plan)
  {
    var check := ReportCheck(s, task, attempt, session);
    if check.Some? then Plan([], Raised(check.value))
    else
      var complete := CompletePlan(s, task, verdict);
      if complete.outcome.Raised? then complete
      else ThenPlan(complete, DispatchPlan(Replay(s, complete.writes), DEFAULT_WORKER_AGENT, report, p))
  }

  function ThenPlan(first: Plan, next: Plan): (plan: Plan) {
    Plan(first.writes + next.writes, if next.outcome.Raised? then next.outcome else first.outcome)
  }

  // ----------------------------------------------------------------- whole runs

  /** Everything that writes to the stream; `Other` is a fact recorded by somebody else. */
  datatype Operation =
    | Dispatch(role: Id, report: seq<Id>, provider: Provider)
    | Rotate(task: Id, provider: Provider)
    | Report(task: Id, attempt: AttemptId, session: Id, verdict: Verdict, report: seq<Id>, provider: Provider)
    | Complete(task: Id, verdict: Verdict)
    | Other(fact: Fact)

  /**
   Facts other parties record: plan revisions, cancellations, gates, and sessions that are
   opened for planning or end outside the dispatcher.
   */
  predicate Foreign(f: Fact) {
    match f
    case RevisionRecorded(_, _, _) | RevisionActivated(_) => true
    case TaskFinished(_, state) => state.Cancelled?
    case SessionOpened(_, forTask, _) => forTask.None?
    case SessionMoved(_, _, rotation) => rotation.None?
    case GateOpened(_, _) | GateSettled(_, _) | GateContinued(_) => true
    case _ => false
  }

  function PlanOf(s: State, op: Operation): (plan: Plan) {
    match op
    case Dispatch(role, report, p) => DispatchPlan(s, role, report, p)
    case Rotate(task, p) => RotatePlan(s, task, p)
    case Report(task, attempt, session, verdict, report, p) => ReportPlan(s, task, attempt, session, verdict, report, p)
    case Complete(task, verdict) => CompletePlan(s, task, verdict)
    case Other(f) =>
      if Foreign(f) && Accepts(s, f) then Plan([f], Done(Recorded)) else Plan([], Raised(CommandRejected))
  }

  /** An operation that stops after `survives` durable writes; a large number means no crash. */
  datatype Step = Step(op: Operation, survives: nat)

  function Take(facts: seq<Fact>, n: nat): (r: seq<Fact>)
    ensures r <= facts
  {
    if n < |facts| then facts[..n] else facts
  }

  function After(s: State, step: Step): (r: State) {
    Replay(s, Take(PlanOf(s, step.op).writes, step.survives))
  }

  function Run(s: State, steps: seq<Step>): (r: State) {
    if steps == [] then s else After(Run(s, steps[..|steps| - 1]), steps[|steps| - 1])
  }
}

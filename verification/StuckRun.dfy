/**
 Runs from the empty stream in which crash repair fails, because the process dies while it rotates
 a session or before it binds the agent, and one in which a rejected gate lets its branch go on.
 */
module StuckRun {
  import opened Prelude
  import opened EventStream
  import opened Dispatcher
  import opened DispatcherInvariants
  import opened Repair
  import opened CrashConvergence
  import opened RunnableSlot

  function Works(session: Id): (p: Provider) {
    Provider(true, Some(session), true, true)
  }

  /** A plan of one task is recorded and activated. */
  function Setup(task: Id, revision: Id): (steps: seq<Step>) {
    [Step(Other(RevisionRecorded(revision, [task], map[task := {}])), 1), Step(Other(RevisionActivated(revision)), 1)]
  }

  function Planned(task: Id, revision: Id): (s: State) {
    State(2, map[task := Task(revision, {}, Pending)], [task], {revision}, Some(revision),
          map[], [], [], [], {}, map[], map[], map[])
  }

  /** A complete dispatch, a session that ends, and a dispatch that dies after its first write. */
  function Fatality(task: Id, role: Id, first: Id, second: Id): (steps: seq<Step>) {
    [Step(Dispatch(role, [task], Works(first)), 4),
     Step(Other(SessionMoved(first, Closed, None)), 1),
     Step(Dispatch(role, [], Works(second)), 1)]
  }

  lemma {:induction false} RunTwo(s: State, a: Step, b: Step)
    ensures Run(s, [a, b]) == After(After(s, a), b)
  {
    Fronts(a, b, b);
    RunLast(s, [a, b]);
    RunLast(s, [a]);
  }

  lemma {:induction false} Fronts<T>(a: T, b: T, c: T)
    ensures [a][..0] == [] && [a, b][..1] == [a] && [a, b, c][..2] == [a, b]
  {
  }

  lemma {:induction false} RunThree(s: State, a: Step, b: Step, c: Step)
    ensures Run(s, [a, b, c]) == After(After(After(s, a), b), c)
  {
    Fronts(a, b, c);
    RunLast(s, [a, b, c]);
    RunTwo(s, a, b);
  }

  lemma {:induction false} OtherAfter(s: State, f: Fact)
    requires Foreign(f) && Accepts(s, f)
    ensures After(s, Step(Other(f), 1)) == Apply(s, f)
  {
    ReplayOne(s, f);
  }

  lemma {:induction false} PlannedIsReached(task: Id, revision: Id)
    ensures Run(EMPTY, Setup(task, revision)) == Planned(task, revision)
  {
    var record := RevisionRecorded(revision, [task], map[task := {}]);
    var s1 := Apply(EMPTY, record);
    assert s1.tasks == map[task := Task(revision, {}, Pending)];
    OtherAfter(EMPTY, record);
    OtherAfter(s1, RevisionActivated(revision));
    RunTwo(EMPTY, Setup(task, revision)[0], Setup(task, revision)[1]);
  }

  lemma {:induction false} PlannedIsIdle(task: Id, revision: Id)
    ensures var s := Planned(task, revision);
      && Accepts(s, TaskActivated(task)) && Target(s).None? && !PlanFinished(s)
      && Selected(s, [task]) == Some(task)
  {
    var s := Planned(task, revision);
    TargetPriority(s);
    assert task in s.tasks && !Terminal(s.tasks[task].state);
  }

  lemma {:induction false} PlannedLaunch(task: Id, revision: Id, role: Id, first: Id)
    ensures LaunchPlan(Apply(Planned(task, revision), TaskActivated(task)), task, role, Works(first)).writes ==
            [SessionOpened(first, Some(task), Some(role)), AttemptStarted(task, first),
             AgentBound(BindingFor(FirstAttempt(task, first), role))]
  {
    var s0 := Apply(Planned(task, revision), TaskActivated(task));
    assert AttemptsOf(s0.attempts, task) == [];
    LaunchConverges(s0, task, role, Works(first));
    assert LaunchSession(s0, task, Works(first)) == Some(first);
  }

  /** The first dispatch activates the task and launches it in the provider's session. */
  lemma {:induction false} FirstDispatch(task: Id, revision: Id, role: Id, first: Id)
    ensures DispatchPlan(Planned(task, revision), role, [task], Works(first)).writes ==
            [TaskActivated(task)] + LaunchPlan(Apply(Planned(task, revision), TaskActivated(task)), task, role,
              Works(first)).writes
  {
    PlannedIsIdle(task, revision);
    assert AttemptsOf(Apply(Planned(task, revision), TaskActivated(task)).attempts, task) == [];
  }

  function Launched(task: Id, revision: Id, role: Id, first: Id, status: SessionStatus, head: nat): (s: State) {
    State(head, map[task := Task(revision, {}, Active)], [task], {revision}, Some(revision),
          map[first := Session(status, Some(task), Some(role))], [first],
          [FirstAttempt(task, first)], [BindingFor(FirstAttempt(task, first), role)], {}, map[], map[], map[])
  }

  lemma {:induction false} ReplaySnoc(s: State, front: seq<Fact>, last: Fact)
    ensures Replay(s, front + [last]) == Apply(Replay(s, front), last)
  {
    assert (front + [last])[..|front|] == front;
  }

  lemma {:induction false} ReplayThree(s: State, a: Fact, b: Fact, c: Fact)
    ensures Replay(s, [a, b, c]) == Apply(Apply(Apply(s, a), b), c)
  {
    ReplayOne(s, a);
    ReplaySnoc(s, [a], b);
    ReplaySnoc(s, [a] + [b], c);
    assert [a] + [b] + [c] == [a, b, c];
  }

  lemma {:induction false} ReplayFour(s: State, a: Fact, b: Fact, c: Fact, d: Fact)
    ensures Replay(s, [a, b, c, d]) == Apply(Apply(Apply(Apply(s, a), b), c), d)
  {
    ReplayThree(s, a, b, c);
    ReplaySnoc(s, [a, b, c], d);
    assert [a, b, c] + [d] == [a, b, c, d];
  }

  lemma {:induction false} LaunchedState(task: Id, revision: Id, role: Id, first: Id)
    ensures Apply(Apply(Apply(Apply(Planned(task, revision), TaskActivated(task)),
                SessionOpened(first, Some(task), Some(role))), AttemptStarted(task, first)),
                AgentBound(BindingFor(FirstAttempt(task, first), role)))
            == Launched(task, revision, role, first, Open, 6)
  {
    var s2 := Apply(Apply(Planned(task, revision), TaskActivated(task)), SessionOpened(first, Some(task), Some(role)));
    var r := Launched(task, revision, role, first, Open, 6);
    assert s2 == r.(head := 4, attempts := [], bindings := []);
    var s3 := Apply(s2, AttemptStarted(task, first));
    assert s3 == r.(head := 5, bindings := []);
  }

  lemma {:induction false} FirstDispatchWrites(task: Id, revision: Id, role: Id, first: Id)
    ensures DispatchPlan(Planned(task, revision), role, [task], Works(first)).writes ==
            [TaskActivated(task), SessionOpened(first, Some(task), Some(role)), AttemptStarted(task, first),
             AgentBound(BindingFor(FirstAttempt(task, first), role))]
  {
    FirstDispatch(task, revision, role, first);
    PlannedLaunch(task, revision, role, first);
  }

  lemma {:induction false} LaunchedIsReached(task: Id, revision: Id, role: Id, first: Id)
    ensures After(Planned(task, revision), Step(Dispatch(role, [task], Works(first)), 4))
            == Launched(task, revision, role, first, Open, 6)
  {
    FirstDispatchWrites(task, revision, role, first);
    ReplayFour(Planned(task, revision), TaskActivated(task), SessionOpened(first, Some(task), Some(role)),
               AttemptStarted(task, first), AgentBound(BindingFor(FirstAttempt(task, first), role)));
    LaunchedState(task, revision, role, first);
  }

  lemma {:induction false} LaunchedOwner(task: Id, revision: Id, role: Id, first: Id)
    ensures var s := Launched(task, revision, role, first, Closed, 7);
      Target(s) == Some(task) && Latest(s, task) == Some(FirstAttempt(task, first))
  {
    var s := Launched(task, revision, role, first, Closed, 7);
    TargetPriority(s);
    assert s.attempts[..0] == [];
    assert AttemptsOf(s.attempts, task) == [FirstAttempt(task, first)];
  }

  /** With its session closed, a rotation opens the successor at once. */
  lemma {:induction false} ClosedRotates(s: State, a: Attempt, p: Provider)
    requires Latest(s, a.task) == Some(a) && a.session in s.sessions && s.sessions[a.session].status.Closed?
    requires Created(s, p).Some? && s.openings == map[] && s.transitions == map[]
    ensures RotatePlan(s, a.task, p).writes != [] && RotatePlan(s, a.task, p).writes[0].SuccessorOpened?
  {
    assert PredecessorWrites(s, a) == [];
  }

  /** A bound lineage whose session is closed is rotated, and nothing is written before that. */
  lemma {:induction false} BoundRotates(s: State, a: Attempt, role: Id, p: Provider)
    requires Bound(s, a.root) && !IsOpen(s, a.session) && Latest(s, a.task) == Some(a)
    ensures RepairPlan(s, a, role, p).writes == RotatePlan(s, a.task, p).writes
  {
    assert Replay(s, []) == s;
    assert [] + RotatePlan(s, a.task, p).writes == RotatePlan(s, a.task, p).writes;
  }

  /** The dispatch after the session ended wants to open a successor first. */
  lemma {:induction false} LastDispatch(task: Id, revision: Id, role: Id, first: Id, second: Id)
    requires first != second
    ensures var s := Launched(task, revision, role, first, Closed, 7);
      && Target(s) == Some(task)
      && DispatchPlan(s, role, [], Works(second)).writes != []
      && DispatchPlan(s, role, [], Works(second)).writes[0].SuccessorOpened?
  {
    var s, a := Launched(task, revision, role, first, Closed, 7), FirstAttempt(task, first);
    LaunchedOwner(task, revision, role, first);
    assert s.bindings[0] in s.bindings;
    BoundRotates(s, a, role, Works(second));
    ClosedRotates(s, a, Works(second));
  }

  lemma {:induction false} FatalityEnds(task: Id, revision: Id, role: Id, first: Id, second: Id)
    requires first != second
    ensures Run(Run(EMPTY, Setup(task, revision)), Fatality(task, role, first, second)) ==
            After(Launched(task, revision, role, first, Closed, 7), Step(Dispatch(role, [], Works(second)), 1))
    ensures Consistent(Launched(task, revision, role, first, Closed, 7))
  {
    var steps := Fatality(task, role, first, second);
    PlannedIsReached(task, revision);
    LaunchedIsReached(task, revision, role, first);
    ClosedIsReached(task, revision, role, first);
    RunThree(Planned(task, revision), steps[0], steps[1], steps[2]);
    RunConsistent(Setup(task, revision));
    StepKeepsConsistent(Planned(task, revision), steps[0]);
    StepKeepsConsistent(Launched(task, revision, role, first, Open, 6), steps[1]);
  }

  lemma {:induction false} ClosedIsReached(task: Id, revision: Id, role: Id, first: Id)
    ensures After(Launched(task, revision, role, first, Open, 6), Step(Other(SessionMoved(first, Closed, None)), 1))
            == Launched(task, revision, role, first, Closed, 7)
  {
    var s := Launched(task, revision, role, first, Open, 6);
    OtherAfter(s, SessionMoved(first, Closed, None));
    assert Apply(s, SessionMoved(first, Closed, None)).sessions ==
        map[first := Session(Closed, Some(task), Some(role))];
  }

  lemma {:induction false} AfterOne(s: State, role: Id, p: Provider)
    requires DispatchPlan(s, role, [], p).writes != []
    ensures After(s, Step(Dispatch(role, [], p), 1)) == Replay(s, DispatchPlan(s, role, [], p).writes[..1])
  {
    TakeOne(DispatchPlan(s, role, [], p).writes);
  }

  lemma {:induction false} FatalFirst(s: State, task: Id, role: Id, p: Provider, s1: State)
    requires Consistent(s) && Target(s) == Some(task) && DispatchPlan(s, role, [], p).writes != []
    requires Fatal(DispatchPlan(s, role, [], p).writes[0]) && s1 == Replay(s, DispatchPlan(s, role, [], p).writes[..1])
    ensures Consistent(s1) && Target(s1) == Some(task) && !Repairable(s1, task)
  {
    DispatchCrash(s, role, [], p, 1);
  }

  /** A dispatch that dies after one write, which nothing repairs. */
  lemma {:induction false} DiesFatally(s: State, task: Id, role: Id, p: Provider, later: seq<Step>)
    requires Consistent(s) && Target(s) == Some(task)
    requires DispatchPlan(s, role, [], p).writes != [] && Fatal(DispatchPlan(s, role, [], p).writes[0])
    requires forall step | step in later :: step.op.Dispatch?
    ensures var r := Run(After(s, Step(Dispatch(role, [], p), 1)), later);
      Target(r) == Some(task) && !Provisioned(r, task)
  {
    AfterOne(s, role, p);
    FatalFirst(s, task, role, p, Replay(s, DispatchPlan(s, role, [], p).writes[..1]));
    StuckForever(Replay(s, DispatchPlan(s, role, [], p).writes[..1]), task, later);
  }

  lemma {:induction false} TakeOne(writes: seq<Fact>)
    requires writes != []
    ensures Take(writes, 1) == writes[..1]
  {
  }

  /**
   Whatever the names are, this run leaves a task that no dispatch can provision any more,
   although every session provider involved works.
   */
  lemma {:induction false} CrashInRotationSticks(
      task: Id, revision: Id, role: Id, first: Id, second: Id, later: seq<Step>)
    requires first != second && forall step | step in later :: step.op.Dispatch?
    ensures var r := Run(Run(Run(EMPTY, Setup(task, revision)), Fatality(task, role, first, second)), later);
      Target(r) == Some(task) && !Provisioned(r, task)
  {
    FatalityEnds(task, revision, role, first, second);
    LastDispatch(task, revision, role, first, second);
    DiesFatally(Launched(task, revision, role, first, Closed, 7), task, role, Works(second), later);
  }
  // ------------------------------------------------------------------- a refused binding

  /** A dispatch that dies before it binds the agent, and a session that ends. */
  function Unbinding(task: Id, role: Id, first: Id): (steps: seq<Step>) {
    [Step(Dispatch(role, [task], Works(first)), 3), Step(Other(SessionMoved(first, Closed, None)), 1)]
  }

  /** The task has its attempt, whose lineage is not bound. */
  function Unbound(task: Id, revision: Id, role: Id, first: Id, status: SessionStatus, head: nat): (s: State) {
    Launched(task, revision, role, first, status, head).(bindings := [])
  }

  lemma {:induction false} UnboundIsReached(task: Id, revision: Id, role: Id, first: Id)
    ensures After(Planned(task, revision), Step(Dispatch(role, [task], Works(first)), 3))
            == Unbound(task, revision, role, first, Open, 5)
  {
    var a, b, c := TaskActivated(task), SessionOpened(first, Some(task), Some(role)), AttemptStarted(task, first);
    FirstDispatchWrites(task, revision, role, first);
    TakeThree(a, b, c, AgentBound(BindingFor(FirstAttempt(task, first), role)));
    ReplayThree(Planned(task, revision), a, b, c);
    UnboundState(task, revision, role, first);
  }

  lemma {:induction false} TakeThree(a: Fact, b: Fact, c: Fact, d: Fact)
    ensures Take([a, b, c, d], 3) == [a, b, c]
  {
  }

  lemma {:induction false} UnboundState(task: Id, revision: Id, role: Id, first: Id)
    ensures Apply(Apply(Apply(Planned(task, revision), TaskActivated(task)),
                SessionOpened(first, Some(task), Some(role))), AttemptStarted(task, first))
            == Unbound(task, revision, role, first, Open, 5)
  {
    var s2 := Apply(Apply(Planned(task, revision), TaskActivated(task)), SessionOpened(first, Some(task), Some(role)));
    assert s2 == Unbound(task, revision, role, first, Open, 4).(attempts := []);
  }

  lemma {:induction false} UnboundCloses(task: Id, revision: Id, role: Id, first: Id)
    ensures After(Unbound(task, revision, role, first, Open, 5), Step(Other(SessionMoved(first, Closed, None)), 1))
            == Unbound(task, revision, role, first, Closed, 6)
  {
    var s := Unbound(task, revision, role, first, Open, 5);
    OtherAfter(s, SessionMoved(first, Closed, None));
    assert Apply(s, SessionMoved(first, Closed, None)).sessions ==
        map[first := Session(Closed, Some(task), Some(role))];
  }

  lemma {:induction false} UnbindingEnds(task: Id, revision: Id, role: Id, first: Id)
    ensures Run(Run(EMPTY, Setup(task, revision)), Unbinding(task, role, first)) ==
        Unbound(task, revision, role, first, Closed, 6)
    ensures Consistent(Unbound(task, revision, role, first, Closed, 6))
  {
    var steps := Unbinding(task, role, first);
    PlannedIsReached(task, revision);
    UnboundIsReached(task, revision, role, first);
    UnboundCloses(task, revision, role, first);
    RunTwo(Planned(task, revision), steps[0], steps[1]);
    RunConsistent(Setup(task, revision));
    StepKeepsConsistent(Planned(task, revision), steps[0]);
    StepKeepsConsistent(Unbound(task, revision, role, first, Open, 5), steps[1]);
  }

  lemma {:induction false} UnboundOwner(task: Id, revision: Id, role: Id, first: Id)
    ensures var s := Unbound(task, revision, role, first, Closed, 6);
      Target(s) == Some(task) && Latest(s, task) == Some(FirstAttempt(task, first))
  {
    var s := Unbound(task, revision, role, first, Closed, 6);
    TargetPriority(s);
    assert s.attempts[..0] == [];
    assert AttemptsOf(s.attempts, task) == [FirstAttempt(task, first)];
  }

  lemma {:induction false} BindRefused(s: State, a: Attempt, role: Id, p: Provider)
    requires s.bindings == [] && s.refused == {} && !IsOpen(s, a.session)
    ensures RepairPlan(s, a, role, p).writes == [BindingRefused(a.root)]
  {
    var agent := if a.session in s.sessions && s.sessions[a.session].agent.Some? then s.sessions[a.session].agent.value
        else role;
    assert !Accepts(s, AgentBound(Binding(a.root, LogicalAgent(agent, a.task), a.id, a.task, a.session)));
  }

  /** The next dispatch wants to bind first, and is refused for good: the session is closed. */
  lemma {:induction false} BindingIsRefused(task: Id, revision: Id, role: Id, first: Id, second: Id)
    ensures var s := Unbound(task, revision, role, first, Closed, 6);
      && Target(s) == Some(task)
      && DispatchPlan(s, role, [], Works(second)).writes == [BindingRefused(AttemptId(task, 1))]
  {
    var s := Unbound(task, revision, role, first, Closed, 6);
    UnboundOwner(task, revision, role, first);
    BindRefused(s, FirstAttempt(task, first), role, Works(second));
  }

  /**
   Whatever the names are: the process dies between starting an attempt and binding its agent, the
   session ends before the next dispatch, and from then on no dispatch provisions the task.
   */
  lemma {:induction false} RefusedBindingSticks(
      task: Id, revision: Id, role: Id, first: Id, second: Id, later: seq<Step>)
    requires forall step | step in later :: step.op.Dispatch?
    ensures var s := Run(Run(EMPTY, Setup(task, revision)), Unbinding(task, role, first));
      var r := Run(After(s, Step(Dispatch(role, [], Works(second)), 1)), later);
      Target(r) == Some(task) && !Provisioned(r, task)
  {
    UnbindingEnds(task, revision, role, first);
    BindingIsRefused(task, revision, role, first, second);
    DiesFatally(Unbound(task, revision, role, first, Closed, 6), task, role, Works(second), later);
  }

  // --------------------------------------------------------------------- a rejected gate

  function GateOf(task: Id): (g: Gate) {
    Gate(task, AttemptId(task, 1), AttemptId(task, 1), Waiting)
  }

  /** A dispatch, a gate for the running task, and a human who settles it without permission. */
  function Rejection(task: Id, role: Id, first: Id, gate: Id): (steps: seq<Step>) {
    [Step(Dispatch(role, [task], Works(first)), 4),
     Step(Other(GateOpened(gate, GateOf(task))), 1),
     Step(Other(GateSettled(gate, true)), 1)]
  }

  lemma {:induction false} GateIsAccepted(task: Id, revision: Id, role: Id, first: Id, gate: Id)
    ensures Accepts(Launched(task, revision, role, first, Open, 6), GateOpened(gate, GateOf(task)))
  {
    var s := Launched(task, revision, role, first, Open, 6);
    assert FirstAttempt(task, first) in s.attempts;
  }

  function Gated(task: Id, revision: Id, role: Id, first: Id, gate: Id, status: GateStatus, head: nat): (s: State) {
    Launched(task, revision, role, first, Open, head).(gates := map[gate := GateOf(task).(status := status)])
  }

  lemma {:induction false} GateSteps(task: Id, revision: Id, role: Id, first: Id, gate: Id)
    ensures After(Launched(task, revision, role, first, Open, 6), Step(Other(GateOpened(gate, GateOf(task))), 1))
            == Gated(task, revision, role, first, gate, Waiting, 7)
    ensures After(Gated(task, revision, role, first, gate, Waiting, 7), Step(Other(GateSettled(gate, true)), 1))
            == Gated(task, revision, role, first, gate, Settled(true), 8)
  {
    GateIsAccepted(task, revision, role, first, gate);
    OtherAfter(Launched(task, revision, role, first, Open, 6), GateOpened(gate, GateOf(task)));
    OtherAfter(Gated(task, revision, role, first, gate, Waiting, 7), GateSettled(gate, true));
    assert map[gate := GateOf(task)][gate := GateOf(task).(status := Settled(true))] ==
        map[gate := GateOf(task).(status := Settled(true))];
  }

  lemma {:induction false} RejectionEnds(task: Id, revision: Id, role: Id, first: Id, gate: Id)
    ensures Run(Run(EMPTY, Setup(task, revision)), Rejection(task, role, first, gate)) ==
            Gated(task, revision, role, first, gate, Settled(true), 8)
    ensures Consistent(Gated(task, revision, role, first, gate, Settled(true), 8))
  {
    var steps := Rejection(task, role, first, gate);
    PlannedIsReached(task, revision);
    LaunchedIsReached(task, revision, role, first);
    GateSteps(task, revision, role, first, gate);
    RunThree(Planned(task, revision), steps[0], steps[1], steps[2]);
    RunConsistent(Setup(task, revision));
    StepKeepsConsistent(Planned(task, revision), steps[0]);
    StepKeepsConsistent(Launched(task, revision, role, first, Open, 6), steps[1]);
    StepKeepsConsistent(Gated(task, revision, role, first, gate, Waiting, 7), steps[2]);
  }

  lemma {:induction false} GatedIsAlone(r: State, task: Id, gate: Id)
    requires Consistent(r) && ActiveNow(r, task) && r.tasks.Keys == {task}
    requires gate in r.gates && r.gates[gate].task == task && r.gates[gate].status == Settled(true)
    requires forall k | k in r.gates :: k == gate
    ensures ResumeReady(r, task) && Target(r) == Some(task)
    ensures forall k: Id, g: Gate | g.task == task :: !Accepts(r, GateOpened(k, g))
  {
    BlockingGateStillResumes(r, gate, task);
    TargetPriority(r);
    assert !WaitsForHuman(r, task);
  }

  /**
   Whatever the names are: after a gate was settled without permission, the dispatcher goes on with
   the branch as if it had been completed, and no further gate of the task can be opened.
   */
  lemma {:induction false} RejectedGateGoesOn(task: Id, revision: Id, role: Id, first: Id, gate: Id)
    ensures var r := Run(Run(EMPTY, Setup(task, revision)), Rejection(task, role, first, gate));
      && gate in r.gates && r.gates[gate].status == Settled(true) && ResumeReady(r, task) && Target(r) == Some(task)
      && forall k: Id, g: Gate | g.task == task :: !Accepts(r, GateOpened(k, g))
  {
    RejectionEnds(task, revision, role, first, gate);
    GatedIsAlone(Gated(task, revision, role, first, gate, Settled(true), 8), task, gate);
  }
}

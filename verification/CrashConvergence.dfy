/**
 Crash convergence. Whatever durable write a dispatch died after, the next dispatch works on
 the same task and activates no other. With a working session provider it provisions that
 task, unless the crash hit the middle of a rotation or a binding was refused.
 */
module CrashConvergence {
  import opened Prelude
  import opened EventStream
  import opened EventStreamInvariants
  import opened Dispatcher
  import opened DispatcherInvariants
  import opened Repair

  // ----------------------------------------------- the slot does not move meanwhile

  predicate ProvisioningFact(f: Fact) {
    match f
    case SessionOpened(_, _, _) | SuccessorOpened(_, _) | SessionMoved(_, _, _) => true
    case AttemptStarted(_, _) | AttemptResumed(_, _, _) | AgentBound(_) | BindingRefused(_) => true
    case _ => false
  }

  predicate AllProvisioning(facts: seq<Fact>) {
    forall f | f in facts :: ProvisioningFact(f)
  }

  lemma {:induction false} RotationWritesKind(s: State, task: Id, p: Provider)
    ensures AllProvisioning(RotatePlan(s, task, p).writes)
  {
  }

  lemma {:induction false} LaunchWritesKind(s: State, task: Id, role: Id, p: Provider)
    ensures AllProvisioning(LaunchPlan(s, task, role, p).writes)
  {
  }

  lemma {:induction false} RepairWritesKind(s: State, a: Attempt, role: Id, p: Provider)
    ensures AllProvisioning(RepairPlan(s, a, role, p).writes)
  {
    var bind := BindPlan(s, a, RoleOf(s, a, role));
    assert AllProvisioning(bind.writes);
    RotationWritesKind(Replay(s, bind.writes), a.task, p);
  }

  lemma {:induction false} ProvisioningWrites(s: State, task: Id, role: Id, p: Provider)
    ensures AllProvisioning(ProvisionPlan(s, task, role, p).writes)
  {
    if Latest(s, task).Some? {
      RepairWritesKind(s, Latest(s, task).value, role, p);
    } else {
      LaunchWritesKind(s, task, role, p);
    }
  }

  /** Provisioning touches no task, no gate and no plan revision. */
  lemma {:induction false} ProvisioningFrame(s: State, facts: seq<Fact>)
    requires AllProvisioning(facts)
    ensures var r := Replay(s, facts);
      r.tasks == s.tasks && r.taskOrder == s.taskOrder && r.current == s.current && r.gates == s.gates
  {
    if facts != [] {
      var front := facts[..|facts| - 1];
      assert forall f | f in front :: f in facts;
      ProvisioningFrame(s, front);
      FactFrame(Replay(s, front), facts[|facts| - 1]);
      assert ProvisioningFact(facts[|facts| - 1]);
    }
  }

  ghost predicate SameSlot(s: State, r: State) {
    forall t :: (Running(s, t) <==> Running(r, t)) && (ResumeReady(s, t) <==> ResumeReady(r, t))
  }

  lemma {:induction false} SlotFramedAt(s: State, r: State, t: Id)
    requires Lineage(s) && GatesExact(s) && Lineage(r) && GatesExact(r)
    requires r.tasks == s.tasks && r.current == s.current && r.gates == s.gates
    ensures (Running(s, t) <==> Running(r, t)) && (ResumeReady(s, t) <==> ResumeReady(r, t))
  {
    HistoryIsAnyGate(s, t);
    HistoryIsAnyGate(r, t);
  }

  lemma {:induction false} SlotFramed(s: State, r: State)
    requires Lineage(s) && GatesExact(s) && Lineage(r) && GatesExact(r)
    requires r.tasks == s.tasks && r.current == s.current && r.gates == s.gates
    ensures SameSlot(s, r)
  {
    forall t ensures (Running(s, t) <==> Running(r, t)) && (ResumeReady(s, t) <==> ResumeReady(r, t)) {
      SlotFramedAt(s, r, t);
    }
  }

  lemma {:induction false} SlotListsFramed(s: State, r: State, order: seq<Id>)
    requires SameSlot(s, r)
    ensures RunningTasks(s, order) == RunningTasks(r, order) && ResumeReadyTasks(s, order) == ResumeReadyTasks(r, order)
  {
    if order != [] {
      SlotListsFramed(s, r, order[..|order| - 1]);
    }
  }

  /** The owner of the runnable slot survives provisioning facts. */
  lemma {:induction false} TargetFramed(s: State, facts: seq<Fact>)
    requires Consistent(s) && AllLegal(s, facts)
    requires AllProvisioning(facts)
    ensures Target(Replay(s, facts)) == Target(s)
  {
    FactsKeepConsistent(s, facts);
    ProvisioningFrame(s, facts);
    SlotFramed(s, Replay(s, facts));
    SlotListsFramed(s, Replay(s, facts), s.taskOrder);
  }

  /** A freshly activated task owns the slot and has no attempt. */
  lemma {:induction false} ActivatedOwnsSlot(s: State, task: Id)
    requires Consistent(s) && Legal(s, TaskActivated(task))
    ensures var r := Apply(s, TaskActivated(task));
      Target(r) == Some(task) && ActiveNow(r, task) && Latest(r, task).None?
  {
    var r := Apply(s, TaskActivated(task));
    FactKeepsConsistent(s, TaskActivated(task));
    AttemptsOfMembers(s.attempts, task);
    PendingHasNoLineage(s, task);
    HistoryIsAnyGate(r, task);
    RunningTasksMembers(r, r.taskOrder);
    assert task in RunningTasks(r, r.taskOrder);
    forall t | Running(r, t) ensures t == task {
      HistoryIsAnyGate(s, t);
      HistoryIsAnyGate(r, t);
    }
    assert RunningTasks(r, r.taskOrder)[0] in RunningTasks(r, r.taskOrder);
  }

  lemma {:induction false} LeftPending(s: State, task: Id)
    requires Lineage(s) && AttemptsOf(s.attempts, task) != []
    ensures task in s.tasks && !s.tasks[task].state.Pending?
  {
    AttemptsOfMembers(s.attempts, task);
    assert AttemptsOf(s.attempts, task)[0] in s.attempts;
  }

  lemma {:induction false} PendingHasNoLineage(s: State, task: Id)
    requires Lineage(s) && GatesExact(s) && task in s.tasks && s.tasks[task].state.Pending?
    ensures AttemptsOf(s.attempts, task) == [] && !HasGate(s, task)
  {
    if AttemptsOf(s.attempts, task) != [] {
      LeftPending(s, task);
    }
    assert forall id | id in s.gates :: GateInLineage(s, s.gates[id]);
  }

  // ------------------------------------------------- the next dispatch, in general

  /**
   In every consistent state, so in every reachable one: a dispatch with a working provider
   provisions the task that owns the slot if and only if that task is repairable. It activates
   no task, and an attempt that existed keeps its root.
   */
  lemma {:induction false} DispatchConverges(s: State, role: Id, report: seq<Id>, p: Provider)
    requires Consistent(s) && Target(s).Some? && Working(s, p)
    ensures var t := Target(s).value;
      var plan := DispatchPlan(s, role, report, p);
      var r := Replay(s, plan.writes);
      && (Provisioned(r, t) <==> Repairable(s, t))
      && (plan.outcome.Done? <==> Repairable(s, t))
      && r.tasks == s.tasks && Target(r) == Some(t)
      && Latest(r, t).Some?
      && Latest(r, t).value.root == (if Latest(s, t).Some? then Latest(s, t).value.root else AttemptId(t, 1))
  {
    var t := Target(s).value;
    TargetPriority(s);
    ProvisionConverges(s, t, role, p);
    ProvisionLegal(s, t, role, p);
    ProvisioningWrites(s, t, role, p);
    ProvisioningFrame(s, ProvisionPlan(s, t, role, p).writes);
    TargetFramed(s, ProvisionPlan(s, t, role, p).writes);
  }

  /** A task that cannot be repaired stays that way over any number of dispatches, crashed or not. */
  lemma {:induction false} StuckForever(s: State, task: Id, steps: seq<Step>)
    requires Consistent(s) && Target(s) == Some(task) && !Repairable(s, task)
    requires forall step | step in steps :: step.op.Dispatch?
    ensures var r := Run(s, steps);
      && Consistent(r) && Target(r) == Some(task)
      && !Repairable(r, task) && !Provisioned(r, task)
      && r.attempts == s.attempts && r.bindings == s.bindings
  {
    if steps == [] {
      var a := Latest(s, task).value;
      LatestIsLast(s, task);
    } else {
      assert forall step | step in steps[..|steps| - 1] :: step in steps;
      StuckForever(s, task, steps[..|steps| - 1]);
      var step := steps[|steps| - 1];
      assert step in steps;
      StuckStep(Run(s, steps[..|steps| - 1]), task, step);
    }
  }

  lemma {:induction false} SlotUnmoved(s: State, r: State)
    requires Consistent(s) && Consistent(r)
    requires r.tasks == s.tasks && r.current == s.current && r.gates == s.gates && r.taskOrder == s.taskOrder
    ensures Target(r) == Target(s)
  {
    SlotFramed(s, r);
    SlotListsFramed(s, r, s.taskOrder);
  }

  lemma {:induction false} RepairDispatched(s: State, a: Attempt, role: Id, report: seq<Id>, p: Provider)
    requires Target(s) == Some(a.task) && Latest(s, a.task) == Some(a) && s.current.Some?
    ensures PlanOf(s, Dispatch(role, report, p)).writes == RepairPlan(s, a, role, p).writes
  {
  }

  /** A repair that fails leaves at most a stored refusal of the binding. */
  lemma {:induction false} FailureWrites(s: State, a: Attempt, role: Id, p: Provider, kept: seq<Fact>)
    requires Lineage(s) && BindingsUnique(s) && Latest(s, a.task) == Some(a) && !Repairable(s, a.task)
    requires kept <= RepairPlan(s, a, role, p).writes
    ensures var r := Replay(s, kept);
      && r == s.(refused := r.refused) && !Repairable(r, a.task) && !Provisioned(r, a.task)
  {
    RepairFails(s, a, role, p);
    FailedRepairChangesNothing(s, a, role, p);
    assert kept == [] || kept == RepairPlan(s, a, role, p).writes;
  }

  lemma {:induction false} StuckStep(s: State, task: Id, step: Step)
    requires Consistent(s) && Target(s) == Some(task) && !Repairable(s, task) && step.op.Dispatch?
    ensures var r := After(s, step);
      && Consistent(r) && Target(r) == Some(task)
      && !Repairable(r, task) && !Provisioned(r, task)
      && r.attempts == s.attempts && r.bindings == s.bindings
  {
    var a := Latest(s, task).value;
    LatestIsLast(s, task);
    TargetPriority(s);
    StepKeepsConsistent(s, step);
    RepairDispatched(s, a, step.op.role, step.op.report, step.op.provider);
    FailureWrites(s, a, step.op.role, step.op.provider, Take(PlanOf(s, step.op).writes, step.survives));
    SlotUnmoved(s, After(s, step));
  }

  // --------------------------------------------------------------- crash points

  /** The two writes after which a lineage cannot be repaired any more. */
  predicate Fatal(f: Fact) {
    f.SuccessorOpened? || f.BindingRefused?
  }

  lemma {:induction false} MovedState(s: State, a: Attempt, r: State)
    requires a.session in s.sessions && PredecessorWrites(s, a) != [] && r == Replay(s, PredecessorWrites(s, a))
    ensures r == s.(head := s.head + 1, sessions := r.sessions, transitions := s.transitions[RotationKey(a) := r.head])
    ensures a.session in r.sessions
  {
    ReplayOne(s, PredecessorWrites(s, a)[0]);
  }

  lemma {:induction false} MovedRepairable(s: State, a: Attempt, r: State)
    requires Latest(s, a.task) == Some(a) && Bound(s, a.root) && a.session in r.sessions
    requires RotationKey(a) !in s.openings
    requires r == s.(head := r.head, sessions := r.sessions, transitions := s.transitions[RotationKey(a) := r.head])
    ensures Repairable(r, a.task)
  {
  }

  /** The predecessor has just been moved: no event came since, so the rotation can still be finished. */
  lemma {:induction false} DiedAfterMove(s: State, a: Attempt)
    requires Lineage(s) && Latest(s, a.task) == Some(a) && Bound(s, a.root) && a.session in s.sessions
    requires RotationKey(a) !in s.openings && PredecessorWrites(s, a) != []
    ensures Repairable(Replay(s, PredecessorWrites(s, a)), a.task)
  {
    var r := Replay(s, PredecessorWrites(s, a));
    MovedState(s, a, r);
    MovedRepairable(s, a, r);
  }

  /** The successor session is on record without an attempt: no later rotation can take its place. */
  lemma {:induction false} DiedAfterOpening(r: State, a: Attempt, successor: Id)
    requires Latest(r, a.task) == Some(a) && !IsOpen(r, a.session) && successor != a.session
    ensures !Repairable(Apply(r, SuccessorOpened(successor, RotationKey(a))), a.task)
  {
  }

  lemma {:induction false} DiedAfterResume(r: State, a: Attempt, successor: Id)
    requires Latest(r, a.task) == Some(a) && Bound(r, a.root)
    ensures Repairable(Apply(Apply(r, SuccessorOpened(successor, RotationKey(a))),
        AttemptResumed(a.task, successor, a.id)), a.task)
  {
    SuccessorIsLatest(r, a, successor);
  }

  /** The writes of a rotation, cut short. */
  lemma {:induction false} RotationPrefix(s: State, a: Attempt, p: Provider, k: nat)
    requires Latest(s, a.task) == Some(a)
    requires 0 < k <= |RotatePlan(s, a.task, p).writes|
    ensures a.session in s.sessions && Created(s, p).Some? && RotationKey(a) !in s.openings
    ensures var writes := RotatePlan(s, a.task, p).writes;
      var moved, successor := PredecessorWrites(s, a), Created(s, p).value;
      || (writes[..k] == moved != [])
      || (writes[..k] == moved + [SuccessorOpened(successor, RotationKey(a))])
      || (writes[..k] == moved + [SuccessorOpened(successor, RotationKey(a))] +
      [AttemptResumed(a.task, successor, a.id)])
  {
    var writes := RotatePlan(s, a.task, p).writes;
    var moved, successor := PredecessorWrites(s, a), Created(s, p).value;
    assert writes[..k] == writes[..k][..];
  }

  /** Dying after the first k writes of a rotation of a bound lineage. */
  lemma {:induction false} RotationCrash(s: State, a: Attempt, p: Provider, k: nat)
    requires Lineage(s) && RotationsMoved(s) && Latest(s, a.task) == Some(a) && Bound(s, a.root)
    requires 0 < k <= |RotatePlan(s, a.task, p).writes|
    ensures var writes := RotatePlan(s, a.task, p).writes;
      Repairable(Replay(s, writes[..k]), a.task) <==> !Fatal(writes[k - 1])
  {
    RotationPrefix(s, a, p, k);
    RotationCrashState(s, a, Created(s, p).value, RotatePlan(s, a.task, p).writes[..k]);
  }

  lemma {:induction false} RotationCrashState(s: State, a: Attempt, successor: Id, done: seq<Fact>)
    requires Lineage(s) && RotationsMoved(s) && Latest(s, a.task) == Some(a) && Bound(s, a.root)
    requires a.session in s.sessions && successor !in s.sessions && RotationKey(a) !in s.openings
    requires
      || (done == PredecessorWrites(s, a) != [])
      || (done == PredecessorWrites(s, a) + [SuccessorOpened(successor, RotationKey(a))])
      || (done == PredecessorWrites(s, a) + [SuccessorOpened(successor, RotationKey(a))] +
                  [AttemptResumed(a.task, successor, a.id)])
    ensures Repairable(Replay(s, done), a.task) <==> !Fatal(done[|done| - 1])
  {
    var moved, opening := PredecessorWrites(s, a), SuccessorOpened(successor, RotationKey(a));
    var r := Replay(s, moved);
    PredecessorMoved(s, a);
    ReplayAppend(s, moved, [opening]);
    ReplayOne(r, opening);
    ReplayAppend(s, moved + [opening], [AttemptResumed(a.task, successor, a.id)]);
    ReplayOne(Apply(r, opening), AttemptResumed(a.task, successor, a.id));
    if done == moved {
      DiedAfterMove(s, a);
    } else if done == moved + [opening] {
      DiedAfterOpening(r, a, successor);
    } else {
      DiedAfterResume(r, a, successor);
    }
  }

  lemma {:induction false} PredecessorMoved(s: State, a: Attempt)
    requires Lineage(s) && RotationsMoved(s) && Latest(s, a.task) == Some(a) && a.session in s.sessions
    ensures var r := Replay(s, PredecessorWrites(s, a));
      !IsOpen(r, a.session) && r.attempts == s.attempts && r.bindings == s.bindings && r.openings == s.openings
  {
    LatestIsLast(s, a.task);
    var writes := PredecessorWrites(s, a);
    if writes != [] {
      ReplayOne(s, writes[0]);
    }
  }

  lemma {:induction false} BindCrash(s: State, a: Attempt, role: Id)
    requires Lineage(s) && BindingsUnique(s) && Latest(s, a.task) == Some(a)
    requires BindPlan(s, a, role).writes != []
    ensures var writes := BindPlan(s, a, role).writes;
      && |writes| == 1
      && (Repairable(Replay(s, writes), a.task) <==> !Fatal(writes[0]))
  {
    LatestIsLast(s, a.task);
    BindOutcome(s, a, role);
    if IsOpen(s, a.session) {
      var r := Replay(s, BindPlan(s, a, role).writes);
      assert r.bindings[|s.bindings|] in r.bindings;
    }
  }

  lemma {:induction false} RepairCrash(s: State, a: Attempt, role: Id, p: Provider, k: nat)
    requires Consistent(s) && Latest(s, a.task) == Some(a)
    requires 0 < k <= |RepairPlan(s, a, role, p).writes|
    ensures var writes := RepairPlan(s, a, role, p).writes;
      Repairable(Replay(s, writes[..k]), a.task) <==> !Fatal(writes[k - 1])
  {
    RepairWritesSplit(s, a, role, p);
    RepairCrashParts(s, a, RoleOf(s, a, role), p, RepairPlan(s, a, role, p).writes, k);
  }

  lemma {:induction false} RepairCrashParts(s: State, a: Attempt, role: Id, p: Provider, writes: seq<Fact>, k: nat)
    requires Consistent(s) && Latest(s, a.task) == Some(a) && 0 < k <= |writes|
    requires var bind := BindPlan(s, a, role);
      || writes == bind.writes
      || (bind.outcome.Done? && writes == bind.writes + RotatePlan(Replay(s, bind.writes), a.task, p).writes)
    ensures Repairable(Replay(s, writes[..k]), a.task) <==> !Fatal(writes[k - 1])
  {
    if k <= |BindPlan(s, a, role).writes| {
      RepairCrashEarly(s, a, role, writes, k);
    } else {
      RepairCrashLate(s, a, role, p, k);
    }
  }

  lemma {:induction false} RepairCrashEarly(s: State, a: Attempt, role: Id, writes: seq<Fact>, k: nat)
    requires Lineage(s) && BindingsUnique(s) && Latest(s, a.task) == Some(a)
    requires BindPlan(s, a, role).writes <= writes && 0 < k <= |BindPlan(s, a, role).writes|
    ensures Repairable(Replay(s, writes[..k]), a.task) <==> !Fatal(writes[k - 1])
  {
    BindCrash(s, a, role);
    FirstPart(BindPlan(s, a, role).writes, writes, k);
  }

  lemma {:induction false} RepairCrashLate(s: State, a: Attempt, role: Id, p: Provider, k: nat)
    requires Consistent(s) && Latest(s, a.task) == Some(a) && BindPlan(s, a, role).outcome.Done?
    requires var first := BindPlan(s, a, role).writes;
      |first| < k <= |first + RotatePlan(Replay(s, first), a.task, p).writes|
    ensures var first := BindPlan(s, a, role).writes;
      var writes := first + RotatePlan(Replay(s, first), a.task, p).writes;
      Repairable(Replay(s, writes[..k]), a.task) <==> !Fatal(writes[k - 1])
  {
    var first := BindPlan(s, a, role).writes;
    BoundAfter(s, a, role);
    RotationAfterBindCrash(s, a, first, Replay(s, first), p, k);
  }

  lemma {:induction false} FirstPart(first: seq<Fact>, writes: seq<Fact>, k: nat)
    requires |first| == k == 1 && first <= writes
    ensures writes[..k] == first && writes[k - 1] == first[0]
  {
  }

  lemma {:induction false} RotationAfterBindCrash(s: State, a: Attempt, first: seq<Fact>, r: State, p: Provider, k: nat)
    requires r == Replay(s, first) && Lineage(r) && RotationsMoved(r) && Latest(r, a.task) == Some(a)
        && Bound(r, a.root)
    requires |first| < k <= |first + RotatePlan(r, a.task, p).writes|
    ensures var writes := first + RotatePlan(r, a.task, p).writes;
      Repairable(Replay(s, writes[..k]), a.task) <==> !Fatal(writes[k - 1])
  {
    RotationCrash(r, a, p, k - |first|);
    JoinPrefix(s, first, RotatePlan(r, a.task, p).writes, k);
  }

  lemma {:induction false} JoinPrefix(s: State, first: seq<Fact>, second: seq<Fact>, k: nat)
    requires |first| < k <= |first + second|
    ensures Replay(s, (first + second)[..k]) == Replay(Replay(s, first), second[..k - |first|])
    ensures (first + second)[k - 1] == second[k - |first| - 1]
  {
    var j := k - |first|;
    ReplayJoinPrefix(s, first, second, j);
    assert |first| + j == k;
  }

  lemma {:induction false} BoundAfter(s: State, a: Attempt, role: Id)
    requires Consistent(s) && Latest(s, a.task) == Some(a) && BindPlan(s, a, role).outcome.Done?
    ensures var r := Replay(s, BindPlan(s, a, role).writes);
      Consistent(r) && Latest(r, a.task) == Some(a) && Bound(r, a.root)
  {
    LatestIsLast(s, a.task);
    BindLegal(s, a, role);
    FactsKeepConsistent(s, BindPlan(s, a, role).writes);
    if !Bound(s, a.root) {
      BindOutcome(s, a, role);
      var r := Replay(s, BindPlan(s, a, role).writes);
      assert r.bindings[|s.bindings|] in r.bindings;
    }
  }

  /** A launch may die anywhere: without an attempt it starts over, with one it is in place. */
  lemma {:induction false} LaunchCrash(s: State, task: Id, role: Id, p: Provider, k: nat)
    requires Lineage(s) && BindingsUnique(s) && Latest(s, task).None? && ActiveNow(s, task)
    requires 0 < k <= |LaunchPlan(s, task, role, p).writes|
    ensures var writes := LaunchPlan(s, task, role, p).writes;
      Repairable(Replay(s, writes[..k]), task) && !Fatal(writes[k - 1])
  {
    var session := LaunchSession(s, task, p).value;
    var opening := OpeningWrites(s, task, role, session);
    OpeningLegal(s, task, role, p);
    LaunchWritesSplit(s, task, role, p);
    if k <= |opening| {
      OpeningCrash(s, task, role, p, k);
    } else {
      StartAfterOpeningCrash(s, task, session, role, p, opening, k - |opening|);
    }
  }

  lemma {:induction false} StartAfterOpeningCrash(
      s: State, task: Id, session: Id, role: Id, p: Provider, opening: seq<Fact>, k: nat)
    requires var r := Replay(s, opening);
      && BindingsUnique(r) && AttemptsOf(r.attempts, task) == [] && IsOpen(r, session)
      && 0 < k <= |StartPlan(r, task, session, role, p).writes|
    ensures var writes := opening + StartPlan(Replay(s, opening), task, session, role, p).writes;
      Repairable(Replay(s, writes[..|opening| + k]), task) && !Fatal(writes[|opening| + k - 1])
  {
    StartCrash(Replay(s, opening), task, session, role, p, k);
    ReplayJoinPrefix(s, opening, StartPlan(Replay(s, opening), task, session, role, p).writes, k);
  }

  lemma {:induction false} LaunchWritesSplit(s: State, task: Id, role: Id, p: Provider)
    requires LaunchSession(s, task, p).Some?
    ensures var session := LaunchSession(s, task, p).value;
      var opening := OpeningWrites(s, task, role, session);
      LaunchPlan(s, task, role, p).writes == opening + StartPlan(Replay(s, opening), task, session, role, p).writes
  {
  }

  lemma {:induction false} OpeningCrash(s: State, task: Id, role: Id, p: Provider, k: nat)
    requires Latest(s, task).None? && LaunchSession(s, task, p).Some?
    requires 0 < k <= |OpeningWrites(s, task, role, LaunchSession(s, task, p).value)|
    ensures var opening := OpeningWrites(s, task, role, LaunchSession(s, task, p).value);
      var writes := opening + StartPlan(Replay(s, opening), task, LaunchSession(s, task, p).value, role, p).writes;
      Repairable(Replay(s, writes[..k]), task) && !Fatal(writes[k - 1])
  {
    var opening := OpeningWrites(s, task, role, LaunchSession(s, task, p).value);
    OpeningLegal(s, task, role, p);
    ReplayJoinPrefix(s, opening, StartPlan(Replay(s, opening), task, LaunchSession(s, task, p).value, role, p).writes,
      0);
  }

  lemma {:induction false} StartWrites(s: State, task: Id, session: Id, role: Id, p: Provider)
    requires BindingsUnique(s) && AttemptsOf(s.attempts, task) == [] && IsOpen(s, session)
    ensures StartPlan(s, task, session, role, p).writes == [] ||
            StartPlan(s, task, session, role, p).writes ==
            [AttemptStarted(task, session)] + [AgentBound(BindingFor(FirstAttempt(task, session), role))]
  {
    StartedLineage(s, task, session);
    FirstBinding(Apply(s, AttemptStarted(task, session)), FirstAttempt(task, session), role);
  }

  lemma {:induction false} DiedAfterStart(s: State, task: Id, session: Id)
    requires BindingsUnique(s) && AttemptsOf(s.attempts, task) == [] && IsOpen(s, session)
    ensures Repairable(Apply(s, AttemptStarted(task, session)), task)
  {
    StartedLineage(s, task, session);
  }

  lemma {:induction false} DiedAfterBinding(s: State, task: Id, session: Id, role: Id)
    requires BindingsUnique(s) && AttemptsOf(s.attempts, task) == [] && IsOpen(s, session)
    ensures Repairable(Replay(Apply(s, AttemptStarted(task, session)),
        [AgentBound(BindingFor(FirstAttempt(task, session), role))]), task)
  {
    StartedLineage(s, task, session);
    FirstBinding(Apply(s, AttemptStarted(task, session)), FirstAttempt(task, session), role);
  }

  lemma {:induction false} PairPrefix(s: State, f: Fact, g: Fact, k: nat)
    requires 1 <= k <= 2
    ensures Replay(s, ([f] + [g])[..k]) == if k == 1 then Apply(s, f) else Replay(Apply(s, f), [g])
    ensures ([f] + [g])[k - 1] == if k == 1 then f else g
  {
    ReplayJoinPrefix(s, [f], [g], k - 1);
    ReplayOne(s, f);
    assert [g][..k - 1] == if k == 1 then [] else [g];
  }

  lemma {:induction false} StartCrash(s: State, task: Id, session: Id, role: Id, p: Provider, k: nat)
    requires BindingsUnique(s) && AttemptsOf(s.attempts, task) == [] && IsOpen(s, session)
    requires 0 < k <= |StartPlan(s, task, session, role, p).writes|
    ensures var writes := StartPlan(s, task, session, role, p).writes;
      Repairable(Replay(s, writes[..k]), task) && !Fatal(writes[k - 1])
  {
    StartWrites(s, task, session, role, p);
    PairPrefix(s, AttemptStarted(task, session), AgentBound(BindingFor(FirstAttempt(task, session), role)), k);
    DiedAfterStart(s, task, session);
    DiedAfterBinding(s, task, session, role);
  }

  lemma {:induction false} ProvisionCrash(s: State, task: Id, role: Id, p: Provider, k: nat)
    requires Consistent(s) && ActiveNow(s, task)
    requires 0 < k <= |ProvisionPlan(s, task, role, p).writes|
    ensures var writes := ProvisionPlan(s, task, role, p).writes;
      Repairable(Replay(s, writes[..k]), task) <==> !Fatal(writes[k - 1])
  {
    if Latest(s, task).Some? {
      LatestIsLast(s, task);
      RepairCrash(s, Latest(s, task).value, role, p, k);
    } else {
      LaunchCrash(s, task, role, p, k);
    }
  }

  /** The slot after a crash: unchanged, or owned by the task the crashed dispatch activated. */
  lemma {:induction false} ProvisionCrashTarget(s: State, task: Id, role: Id, p: Provider, k: nat)
    requires Consistent(s) && Target(s) == Some(task) && k <= |ProvisionPlan(s, task, role, p).writes|
    ensures var s1 := Replay(s, ProvisionPlan(s, task, role, p).writes[..k]);
      Consistent(s1) && Target(s1) == Some(task)
  {
    var writes := ProvisionPlan(s, task, role, p).writes;
    ProvisionLegal(s, task, role, p);
    LegalPrefix(s, writes, k);
    ProvisioningWrites(s, task, role, p);
    FactsKeepConsistent(s, writes[..k]);
    TargetFramed(s, writes[..k]);
  }

  /** Dying after the first k writes of any dispatch. */
  lemma {:induction false} DispatchCrash(s: State, role: Id, report: seq<Id>, p: Provider, k: nat)
    requires Consistent(s) && 0 < k <= |DispatchPlan(s, role, report, p).writes|
    ensures var writes := DispatchPlan(s, role, report, p).writes;
      var s1 := Replay(s, writes[..k]);
      && Consistent(s1) && Target(s1).Some?
      && (Target(s).Some? ==> Target(s1) == Target(s))
      && (Target(s).None? ==> writes[0] == TaskActivated(Target(s1).value))
      && (Repairable(s1, Target(s1).value) <==> !Fatal(writes[k - 1]))
  {
    var writes := DispatchPlan(s, role, report, p).writes;
    TargetPriority(s);
    if Target(s).Some? {
      ProvisionCrash(s, Target(s).value, role, p, k);
      ProvisionCrashTarget(s, Target(s).value, role, p, k);
    } else {
      ActivatedCrash(s, Selected(s, report).value, role, report, p, k);
    }
  }

  lemma {:induction false} ActivatedCrash(s: State, task: Id, role: Id, report: seq<Id>, p: Provider, k: nat)
    requires Consistent(s) && Target(s).None? && 0 < k <= |DispatchPlan(s, role, report, p).writes|
    requires Selected(s, report) == Some(task)
    ensures var writes := DispatchPlan(s, role, report, p).writes;
      var s1 := Replay(s, writes[..k]);
      && Consistent(s1) && Target(s1) == Some(task) && writes[0] == TaskActivated(task)
      && (Repairable(s1, task) <==> !Fatal(writes[k - 1]))
  {
    SelectedIsReady(s, report);
    TargetPriority(s);
    ActivatedWrites(s, task, role, report, p);
    AfterActivationCrash(s, task, role, p, DispatchPlan(s, role, report, p).writes, k);
  }

  lemma {:induction false} ActivatedWrites(s: State, task: Id, role: Id, report: seq<Id>, p: Provider)
    requires Target(s).None? && DispatchPlan(s, role, report, p).writes != [] && Selected(s, report) == Some(task)
    ensures DispatchPlan(s, role, report, p).writes ==
            [TaskActivated(task)] + ProvisionPlan(Apply(s, TaskActivated(task)), task, role, p).writes
  {
  }

  lemma {:induction false} AfterActivationPrefix(s: State, f: Fact, rest: seq<Fact>, k: nat)
    requires 0 < k <= |[f] + rest|
    ensures Replay(s, ([f] + rest)[..k]) == Replay(Apply(s, f), rest[..k - 1])
    ensures k > 1 ==> ([f] + rest)[k - 1] == rest[k - 2]
  {
    ReplayJoinPrefix(s, [f], rest, k - 1);
    ReplayOne(s, f);
  }

  lemma {:induction false} OwnedAfter(s: State, f: Fact, rest: seq<Fact>, k: nat, task: Id)
    requires 0 < k <= |[f] + rest| && !Fatal(f)
    requires var s0 := Apply(s, f); Consistent(s0) && Target(s0) == Some(task) && Repairable(s0, task)
    requires k > 1 ==>
               var s1 := Replay(Apply(s, f), rest[..k - 1]);
               Consistent(s1) && Target(s1) == Some(task) && (Repairable(s1, task) <==> !Fatal(rest[k - 2]))
    ensures var s1 := Replay(s, ([f] + rest)[..k]);
      Consistent(s1) && Target(s1) == Some(task) && (Repairable(s1, task) <==> !Fatal(([f] + rest)[k - 1]))
  {
    AfterActivationPrefix(s, f, rest, k);
    if k == 1 {
      assert rest[..0] == [] && Replay(Apply(s, f), []) == Apply(s, f);
    }
  }

  lemma {:induction false} ActivatedRepairable(s: State, task: Id)
    requires Consistent(s) && Legal(s, TaskActivated(task))
    ensures var s0 := Apply(s, TaskActivated(task));
      Consistent(s0) && Target(s0) == Some(task) && ActiveNow(s0, task) && Repairable(s0, task)
  {
    FactKeepsConsistent(s, TaskActivated(task));
    ActivatedOwnsSlot(s, task);
  }

  lemma {:induction false} ProvisionAfter(s: State, s0: State, task: Id, role: Id, p: Provider, f: Fact,
      rest: seq<Fact>, k: nat)
    requires s0 == Apply(s, f) && !Fatal(f)
    requires Consistent(s0) && Target(s0) == Some(task) && ActiveNow(s0, task) && Repairable(s0, task)
    requires rest == ProvisionPlan(s0, task, role, p).writes && 0 < k <= |[f] + rest|
    ensures var s1 := Replay(s, ([f] + rest)[..k]);
      Consistent(s1) && Target(s1) == Some(task) && (Repairable(s1, task) <==> !Fatal(([f] + rest)[k - 1]))
  {
    if k > 1 {
      OwnerCrash(s0, task, rest, role, p, k - 1);
    }
    OwnedAfter(s, f, rest, k, task);
  }

  lemma {:induction false} AfterActivationCrash(s: State, task: Id, role: Id, p: Provider, writes: seq<Fact>, k: nat)
    requires Consistent(s) && Legal(s, TaskActivated(task)) && 0 < k <= |writes|
    requires writes == [TaskActivated(task)] + ProvisionPlan(Apply(s, TaskActivated(task)), task, role, p).writes
    ensures var s1 := Replay(s, writes[..k]);
      Consistent(s1) && Target(s1) == Some(task) && (Repairable(s1, task) <==> !Fatal(writes[k - 1]))
  {
    var s0 := Apply(s, TaskActivated(task));
    ActivatedRepairable(s, task);
    ProvisionAfter(s, s0, task, role, p, TaskActivated(task), ProvisionPlan(s0, task, role, p).writes, k);
  }

  lemma {:induction false} OwnerCrash(s: State, task: Id, writes: seq<Fact>, role: Id, p: Provider, k: nat)
    requires Consistent(s) && Target(s) == Some(task) && ActiveNow(s, task)
    requires writes == ProvisionPlan(s, task, role, p).writes && 0 < k <= |writes|
    ensures var s1 := Replay(s, writes[..k]);
      Consistent(s1) && Target(s1) == Some(task) && (Repairable(s1, task) <==> !Fatal(writes[k - 1]))
  {
    ProvisionCrashTarget(s, task, role, p, k);
    ProvisionCrash(s, task, role, p, k);
  }

  /**
   Crash convergence. A dispatch dies after any of its writes; the next dispatch has a working
   provider. It activates no task and provisions the one the crashed dispatch was working on,
   exactly when the last surviving write is neither the opening of a successor session nor a
   refused binding. A lineage that existed at the crash keeps its root.
   */
  lemma {:induction false} CrashThenDispatch(
      s: State, role: Id, report: seq<Id>, p: Provider, k: nat, role2: Id, report2: seq<Id>, p2: Provider)
    requires Consistent(s) && 0 < k <= |DispatchPlan(s, role, report, p).writes|
    requires Working(Replay(s, DispatchPlan(s, role, report, p).writes[..k]), p2)
    ensures var writes := DispatchPlan(s, role, report, p).writes;
      var s1 := Replay(s, writes[..k]);
      var next := DispatchPlan(s1, role2, report2, p2);
      var s2 := Replay(s1, next.writes);
      && Target(s1).Some? && (Target(s).Some? ==> Target(s1) == Target(s))
      && s2.tasks == s1.tasks
      && (Provisioned(s2, Target(s1).value) <==> !Fatal(writes[k - 1]))
      && (next.outcome.Done? <==> !Fatal(writes[k - 1]))
      && (Latest(s1, Target(s1).value).Some? ==>
            && Latest(s2, Target(s1).value).Some?
            && Latest(s2, Target(s1).value).value.root == Latest(s1, Target(s1).value).value.root)
  {
    DispatchCrash(s, role, report, p, k);
    DispatchConverges(Replay(s, DispatchPlan(s, role, report, p).writes[..k]), role2, report2, p2);
  }
}

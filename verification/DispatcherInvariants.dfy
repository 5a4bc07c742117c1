/** Every run of dispatcher operations, with crashes anywhere, keeps the stream consistent. */
module DispatcherInvariants {
  import opened Prelude
  import opened EventStream
  import opened EventStreamInvariants
  import opened Dispatcher

  lemma {:induction false} PredecessorWritesLegal(s: State, a: Attempt)
    requires Lineage(s) && Latest(s, a.task) == Some(a) && a.session in s.sessions
    ensures AllLegal(s, PredecessorWrites(s, a))
    ensures var r := Replay(s, PredecessorWrites(s, a));
      && r.sessions.Keys == s.sessions.Keys && r.attempts == s.attempts
      && (forall k | k in s.sessions :: r.sessions[k].task == s.sessions[k].task)
      && r.tasks == s.tasks && r.current == s.current && r.openings == s.openings
      && r.gates == s.gates && r.taskOrder == s.taskOrder && r.bindings == s.bindings && r.refused == s.refused
  {
    var writes := PredecessorWrites(s, a);
    LatestIsLast(s, a.task);
    if writes != [] {
      ReplayOne(s, writes[0]);
    }
  }

  /** Opening the successor and resuming in it, once the predecessor is dealt with. */
  lemma {:induction false} SuccessorLegal(s: State, r: State, task: Id, successor: Id, key: AttemptId)
    requires Lineage(s) && Latest(s, task).Some? && key == RotationKey(Latest(s, task).value)
    requires r.attempts == s.attempts && r.sessions.Keys == s.sessions.Keys
    requires r.tasks == s.tasks && r.current == s.current
    requires successor !in s.sessions
    ensures Legal(r, SuccessorOpened(successor, key))
    ensures var resume := AttemptResumed(task, successor, Latest(s, task).value.id);
      var r2 := Apply(r, SuccessorOpened(successor, key));
      && (Accepts(r2, resume) <==> ActiveNow(s, task))
      && (Accepts(r2, resume) ==> Legal(r2, resume))
  {
    LatestIsLast(s, task);
    NextNameFree(s, task);
    assert Latest(r, task) == Latest(s, task);
  }

  /** Only a task that is no longer active in the current revision refuses to be resumed. */
  lemma {:induction false} RotationLegal(s: State, task: Id, p: Provider)
    requires Lineage(s)
    ensures AllLegal(s, RotatePlan(s, task, p).writes)
    ensures RotatePlan(s, task, p).outcome == Raised(CommandRejected) ==> !ActiveNow(s, task)
  {
    var plan := RotatePlan(s, task, p);
    if plan.writes != [] {
      var a := Latest(s, task).value;
      var successor, key := Created(s, p).value, RotationKey(a);
      PredecessorWritesLegal(s, a);
      var moved := PredecessorWrites(s, a);
      SuccessorLegal(s, Replay(s, moved), task, successor, key);
      TwoMoreLegal(s, moved, SuccessorOpened(successor, key), AttemptResumed(task, successor, a.id));
    }
  }

  lemma {:induction false} OneMoreLegal(s: State, facts: seq<Fact>, f: Fact)
    requires AllLegal(s, facts) && Legal(Replay(s, facts), f)
    ensures AllLegal(s, facts + [f]) && Replay(s, facts + [f]) == Apply(Replay(s, facts), f)
  {
    ReplayAppend(s, facts, [f]);
    ReplayOne(Replay(s, facts), f);
  }

  lemma {:induction false} TwoMoreLegal(s: State, facts: seq<Fact>, f: Fact, g: Fact)
    requires AllLegal(s, facts) && Legal(Replay(s, facts), f)
    ensures AllLegal(s, facts + [f]) && Replay(s, facts + [f]) == Apply(Replay(s, facts), f)
    ensures Legal(Apply(Replay(s, facts), f), g) ==>
            && AllLegal(s, facts + [f] + [g])
            && Replay(s, facts + [f] + [g]) == Apply(Apply(Replay(s, facts), f), g)
  {
    OneMoreLegal(s, facts, f);
    if Legal(Apply(Replay(s, facts), f), g) {
      OneMoreLegal(s, facts + [f], g);
    }
  }

  lemma {:induction false} BindWritesLegal(s: State, a: Attempt, role: Id)
    requires AttemptsOf(s.attempts, a.task) != [] && a.root.task == a.task
    ensures AllLegal(s, BindPlan(s, a, role).writes)
  {
    var writes := BindPlan(s, a, role).writes;
    if writes != [] {
      ReplayOne(s, writes[0]);
    }
  }

  lemma {:induction false} BindWritesOnly(s: State, a: Attempt, role: Id)
    ensures BindPlan(s, a, role).writes == [] || exists f: Fact ::
              BindPlan(s, a, role).writes == [f] && (f.AgentBound? || f.BindingRefused?)
  {
    var writes := BindPlan(s, a, role).writes;
    if writes != [] {
      assert writes == [writes[0]];
    }
  }

  lemma {:induction false} BindLegal(s: State, a: Attempt, role: Id)
    requires AttemptsOf(s.attempts, a.task) != [] && a.root.task == a.task
    ensures AllLegal(s, BindPlan(s, a, role).writes)
    ensures var r := Replay(s, BindPlan(s, a, role).writes);
      r == s.(head := r.head, bindings := r.bindings, refused := r.refused)
  {
    BindWritesLegal(s, a, role);
    BindWritesOnly(s, a, role);
    if BindPlan(s, a, role).writes != [] {
      ReplayOne(s, BindPlan(s, a, role).writes[0]);
    }
  }

  function RoleOf(s: State, a: Attempt, role: Id): (r: Id) {
    if a.session in s.sessions && s.sessions[a.session].agent.Some? then s.sessions[a.session].agent.value else role
  }

  lemma {:induction false} RepairWritesSplit(s: State, a: Attempt, role: Id, p: Provider)
    ensures var bind := BindPlan(s, a, RoleOf(s, a, role));
      var writes := RepairPlan(s, a, role, p).writes;
      || writes == bind.writes
      || (bind.outcome.Done? && writes == bind.writes + RotatePlan(Replay(s, bind.writes), a.task, p).writes)
  {
  }

  lemma {:induction false} RepairLegal(s: State, a: Attempt, role: Id, p: Provider)
    requires Consistent(s) && Latest(s, a.task) == Some(a)
    ensures AllLegal(s, RepairPlan(s, a, role, p).writes)
  {
    var first := BindPlan(s, a, RoleOf(s, a, role)).writes;
    LatestIsLast(s, a.task);
    BindLegal(s, a, RoleOf(s, a, role));
    RepairWritesSplit(s, a, role, p);
    FactsKeepConsistent(s, first);
    RotationLegal(Replay(s, first), a.task, p);
    ReplayAppend(s, first, RotatePlan(Replay(s, first), a.task, p).writes);
  }

  lemma {:induction false} OpenSessionForIs(s: State, order: seq<Id>, task: Id)
    requires OpenSessionFor(s, order, task).Some?
    ensures var k := OpenSessionFor(s, order, task).value; IsOpen(s, k) && s.sessions[k].task == Some(task)
  {
    var last := order[|order| - 1];
    if !(IsOpen(s, last) && s.sessions[last].task == Some(task)) {
      OpenSessionForIs(s, order[..|order| - 1], task);
    }
  }

  /** After the opening writes the launch's session is open and belongs to the task. */
  lemma {:induction false} OpeningLegal(s: State, task: Id, role: Id, p: Provider)
    requires LaunchSession(s, task, p).Some?
    ensures var session := LaunchSession(s, task, p).value;
      var r := Replay(s, OpeningWrites(s, task, role, session));
      && AllLegal(s, OpeningWrites(s, task, role, session))
      && IsOpen(r, session) && r.sessions[session].task == Some(task)
      && r == s.(head := r.head, sessions := r.sessions, sessionOrder := r.sessionOrder)
  {
    if OpenSessionFor(s, s.sessionOrder, task).Some? {
      OpenSessionForIs(s, s.sessionOrder, task);
    } else {
      ReplayOne(s, SessionOpened(LaunchSession(s, task, p).value, Some(task), Some(role)));
    }
  }

  lemma {:induction false} StartAccepted(s: State, task: Id, session: Id)
    requires AttemptsOf(s.attempts, task) == [] && !HasAttempt(s, AttemptId(task, 1))
    requires IsOpen(s, session) && s.sessions[session].task == Some(task)
    ensures Accepts(s, AttemptStarted(task, session)) <==> ActiveNow(s, task)
    ensures Accepts(s, AttemptStarted(task, session)) ==> Legal(s, AttemptStarted(task, session))
  {
  }

  lemma {:induction false} StartLegal(s: State, task: Id, session: Id, role: Id, p: Provider)
    requires AttemptsOf(s.attempts, task) == [] && !HasAttempt(s, AttemptId(task, 1))
    requires IsOpen(s, session) && s.sessions[session].task == Some(task)
    ensures AllLegal(s, StartPlan(s, task, session, role, p).writes)
  {
    var start := AttemptStarted(task, session);
    StartAccepted(s, task, session);
    if Accepts(s, start) {
      var started := Apply(s, start);
      AttemptsOfSnoc(s.attempts, FirstAttempt(task, session), task);
      BindLegal(started, FirstAttempt(task, session), role);
      ReplayCons(s, start, BindPlan(started, FirstAttempt(task, session), role).writes);
    }
  }

  lemma {:induction false} LaunchLegal(s: State, task: Id, role: Id, p: Provider)
    requires Lineage(s) && Latest(s, task).None?
    ensures AllLegal(s, LaunchPlan(s, task, role, p).writes)
  {
    if LaunchSession(s, task, p).Some? {
      var session := LaunchSession(s, task, p).value;
      var opening := OpeningWrites(s, task, role, session);
      NextNameFree(s, task);
      OpeningLegal(s, task, role, p);
      StartLegal(Replay(s, opening), task, session, role, p);
      ReplayAppend(s, opening, StartPlan(Replay(s, opening), task, session, role, p).writes);
    }
  }

  lemma {:induction false} ProvisionLegal(s: State, task: Id, role: Id, p: Provider)
    requires Consistent(s)
    ensures AllLegal(s, ProvisionPlan(s, task, role, p).writes)
  {
    if Latest(s, task).Some? {
      LatestIsLast(s, task);
      RepairLegal(s, Latest(s, task).value, role, p);
    } else {
      LaunchLegal(s, task, role, p);
    }
  }

  lemma {:induction false} SelectedIsReady(s: State, report: seq<Id>)
    requires Selected(s, report).Some?
    ensures ReadyNow(s, Selected(s, report).value) && Selected(s, report).value in report
  {
    if !ReadyNow(s, report[0]) {
      SelectedIsReady(s, report[1..]);
    }
  }

  lemma {:induction false} RunningTasksMembers(s: State, order: seq<Id>)
    ensures forall t :: t in RunningTasks(s, order) <==> t in order && Running(s, t)
  {
    if order != [] {
      RunningTasksMembers(s, order[..|order| - 1]);
      assert order == order[..|order| - 1] + [order[|order| - 1]];
    }
  }

  lemma {:induction false} ResumeReadyTasksMembers(s: State, order: seq<Id>)
    ensures forall t :: t in ResumeReadyTasks(s, order) <==> t in order && ResumeReady(s, t)
  {
    if order != [] {
      ResumeReadyTasksMembers(s, order[..|order| - 1]);
      assert order == order[..|order| - 1] + [order[|order| - 1]];
    }
  }

  /** Who owns the runnable slot: a running task if there is one, else a resume-ready one. */
  lemma {:induction false} TargetPriority(s: State)
    requires OrderListsTasks(s)
    ensures Target(s).None? <==> forall t | t in s.tasks && ActiveNow(s, t) :: WaitsForHuman(s, t)
    ensures Target(s).Some? ==>
            var t := Target(s).value;
            t in s.tasks && (Running(s, t) || (ResumeReady(s, t) && forall u | u in s.tasks :: !Running(s, u)))
  {
    var running, ready := RunningTasks(s, s.taskOrder), ResumeReadyTasks(s, s.taskOrder);
    RunningTasksMembers(s, s.taskOrder);
    ResumeReadyTasksMembers(s, s.taskOrder);
    if running != [] {
      assert running[0] in running;
    } else if ready != [] {
      assert ready[0] in ready;
    } else {
      forall t | t in s.tasks && ActiveNow(s, t) ensures WaitsForHuman(s, t) {
        assert t in s.taskOrder && t !in running && t !in ready;
      }
    }
  }

  lemma {:induction false} DispatchLegal(s: State, role: Id, report: seq<Id>, p: Provider)
    requires Consistent(s)
    ensures AllLegal(s, DispatchPlan(s, role, report, p).writes)
  {
    if s.current.Some? {
      if Target(s).Some? {
        ProvisionLegal(s, Target(s).value, role, p);
      } else if p.healthy && !PlanFinished(s) && Selected(s, report).Some? {
        SelectedIsReady(s, report);
        TargetPriority(s);
        var activate := TaskActivated(Selected(s, report).value);
        FactKeepsConsistent(s, activate);
        ProvisionLegal(Apply(s, activate), activate.task, role, p);
        ReplayCons(s, activate, ProvisionPlan(Apply(s, activate), activate.task, role, p).writes);
      }
    }
  }

  lemma {:induction false} CompleteLegal(s: State, task: Id, verdict: Verdict)
    ensures AllLegal(s, CompletePlan(s, task, verdict).writes)
  {
    var writes := CompletePlan(s, task, verdict).writes;
    if writes != [] {
      ReplayOne(s, writes[0]);
      if |writes| == 2 {
        OneMoreLegal(s, [writes[0]], writes[1]);
        assert writes == [writes[0]] + [writes[1]];
      } else {
        assert writes == [writes[0]];
      }
    }
  }

  lemma {:induction false} ThenLegal(s: State, first: Plan, next: Plan)
    requires AllLegal(s, first.writes) && AllLegal(Replay(s, first.writes), next.writes)
    ensures AllLegal(s, ThenPlan(first, next).writes)
  {
    ReplayAppend(s, first.writes, next.writes);
  }

  lemma {:induction false} ReportLegal(s: State, task: Id, attempt: AttemptId, session: Id, verdict: Verdict,
      report: seq<Id>, p: Provider)
    requires Consistent(s)
    ensures AllLegal(s, ReportPlan(s, task, attempt, session, verdict, report, p).writes)
  {
    var complete := CompletePlan(s, task, verdict);
    CompleteLegal(s, task, verdict);
    if ReportCheck(s, task, attempt, session).None? && complete.outcome.Done? {
      FactsKeepConsistent(s, complete.writes);
      var mid := Replay(s, complete.writes);
      DispatchLegal(mid, DEFAULT_WORKER_AGENT, report, p);
      var next := DispatchPlan(mid, DEFAULT_WORKER_AGENT, report, p);
      ThenLegal(s, complete, next);
      assert ReportPlan(s, task, attempt, session, verdict, report, p) == ThenPlan(complete, next);
    }
  }

  lemma {:induction false} OtherLegal(s: State, f: Fact)
    ensures AllLegal(s, PlanOf(s, Other(f)).writes)
  {
    if Foreign(f) && Accepts(s, f) {
      ReplayOne(s, f);
    }
  }

  lemma {:induction false} PlanLegal(s: State, op: Operation)
    requires Consistent(s)
    ensures AllLegal(s, PlanOf(s, op).writes)
  {
    match op
    case Dispatch(role, report, p) => DispatchLegal(s, role, report, p);
    case Rotate(task, p) => RotationLegal(s, task, p);
    case Complete(task, verdict) => CompleteLegal(s, task, verdict);
    case Report(task, attempt, session, verdict, report, p) =>
      ReportLegal(s, task, attempt, session, verdict, report, p);
    case Other(f) => OtherLegal(s, f);
  }

  lemma {:induction false} RunLast(s: State, steps: seq<Step>)
    requires steps != []
    ensures Run(s, steps) == After(Run(s, steps[..|steps| - 1]), steps[|steps| - 1])
  {
  }

  lemma {:induction false} StepKeepsConsistent(s: State, step: Step)
    requires Consistent(s)
    ensures Consistent(After(s, step))
  {
    var writes := PlanOf(s, step.op).writes;
    PlanLegal(s, step.op);
    if step.survives < |writes| {
      LegalPrefix(s, writes, step.survives);
    }
    FactsKeepConsistent(s, Take(writes, step.survives));
  }

  /**
   Attempt lineage: after any mix of dispatches, rotations, reports, completions, gates and
   plan revisions, with a crash after any write, the attempts of a task form one chain with
   one root and ordinals 1, 2, 3, ...
   */
  lemma {:induction false} RunConsistent(steps: seq<Step>)
    ensures Consistent(Run(EMPTY, steps))
  {
    if steps == [] {
      assert forall t :: AttemptsOf([], t) == [];
    } else {
      RunConsistent(steps[..|steps| - 1]);
      StepKeepsConsistent(Run(EMPTY, steps[..|steps| - 1]), steps[|steps| - 1]);
    }
  }
}

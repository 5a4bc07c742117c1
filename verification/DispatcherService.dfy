/**
 The dispatcher as it runs: one service object appending to the event stream step by step.
 Every method is tied to its plan, so what the other modules prove about plans and their
 prefixes holds of the service.
 */
module DispatcherService {
  import opened Prelude
  import opened EventStream
  import opened Dispatcher

  lemma {:induction false} OneThenOther(s: State, a: Fact, b: Fact)
    ensures Replay(s, [a, b]) == Apply(Apply(s, a), b)
  {
    ReplayCons(s, a, [b]);
    ReplayOne(Apply(s, a), b);
    assert [a] + [b] == [a, b];
  }

  /** The session of the task's last attempt has not ended. */
  predicate SessionLives(s: State, latest: Option<Attempt>) {
    latest.Some? && latest.value.session in s.sessions && s.sessions[latest.value.session].status in {Open, Suspended}
  }

  lemma {:induction false} ClosingWrites(s: State, task: Id, verdict: Verdict, finish: Fact, latest: Option<Attempt>)
    requires !verdict.Unsupported? && task in s.tasks && s.tasks[task].state.Active?
    requires finish == TaskFinished(task, if verdict.Succeed? then Succeeded else Failed)
    requires latest == Latest(Apply(s, finish), task)
    ensures Accepts(s, finish) && CompletePlan(s, task, verdict).outcome == Done(TaskClosed)
    ensures !SessionLives(s, latest) ==>
      var plan := CompletePlan(s, task, verdict); plan.writes == [finish] && Replay(s, plan.writes) == Apply(s, finish)
    ensures SessionLives(s, latest) ==>
      var plan, close := CompletePlan(s, task, verdict), SessionMoved(latest.value.session, Closed, None);
      && plan.writes == [finish] + [close] && Accepts(Apply(s, finish), close)
      && Replay(s, plan.writes) == Apply(Apply(s, finish), close)
  {
    ReplayOne(s, finish);
    if SessionLives(s, latest) {
      OneThenOther(s, finish, SessionMoved(latest.value.session, Closed, None));
    }
  }

  class Service {
    var stream: seq<Fact>

    constructor ()
      ensures stream == []
    {
      stream := [];
    }

    /** The state a replay of the stream rebuilds. */
    function Composed(): (s: State)
      reads this
    {
      Replay(EMPTY, stream)
    }

    /** One command: its handler appends the fact or refuses it. */
    method Execute(f: Fact) returns (accepted: bool)
      modifies this
      ensures accepted == Accepts(old(Composed()), f)
      ensures stream == old(stream) + if accepted then [f] else []
      ensures Composed() == if accepted then Apply(old(Composed()), f) else old(Composed())
    {
      accepted := Accepts(Composed(), f);
      if accepted {
        ReplayAppend(EMPTY, stream, [f]);
        ReplayOne(Composed(), f);
        stream := stream + [f];
      }
    }

    method BindLogicalAgent(a: Attempt, role: Id) returns (outcome: Outcome)
      modifies this
      ensures stream == old(stream) + BindPlan(old(Composed()), a, role).writes
      ensures Composed() == Replay(old(Composed()), BindPlan(old(Composed()), a, role).writes)
      ensures outcome == BindPlan(old(Composed()), a, role).outcome
    {
      var s := Composed();
      if Bound(s, a.root) {
        return Done(Recorded);
      }
      if a.root in s.refused {
        return Raised(BindingNotMade);
      }
      var bind := AgentBound(Binding(a.root, LogicalAgent(role, a.task), a.id, a.task, a.session));
      ReplayOne(s, bind);
      ReplayOne(s, BindingRefused(a.root));
      var accepted := Execute(bind);
      if !accepted {
        var _ := Execute(BindingRefused(a.root));
        return Raised(BindingNotMade);
      }
      outcome := Done(Recorded);
    }

    method MovePredecessor(a: Attempt)
      requires a.session in Composed().sessions
      modifies this
      ensures stream == old(stream) + PredecessorWrites(old(Composed()), a)
      ensures Composed() == Replay(old(Composed()), PredecessorWrites(old(Composed()), a))
    {
      var s := Composed();
      var status := s.sessions[a.session].status;
      if RotationKey(a) !in s.transitions && !status.Closed? && !status.Broken? {
        var move := SessionMoved(a.session, if status.Open? then Suspended else Closed, Some(RotationKey(a)));
        ReplayOne(s, move);
        var _ := Execute(move);
      }
    }

    method RotateSession(task: Id, p: Provider) returns (outcome: Outcome)
      modifies this
      ensures stream == old(stream) + RotatePlan(old(Composed()), task, p).writes
      ensures Composed() == Replay(old(Composed()), RotatePlan(old(Composed()), task, p).writes)
      ensures outcome == RotatePlan(old(Composed()), task, p).outcome
    {
      var s := Composed();
      var latest := Latest(s, task);
      if latest.None? {
        return Raised(AttemptNotFound);
      }
      var a := latest.value;
      if a.session !in s.sessions {
        return Raised(PredecessorNotFound);
      }
      if Created(s, p).None? {
        return Raised(ProviderFailed);
      }
      if RotationKey(a) in s.openings {
        return Raised(RotationIdentityConflict);
      }
      if RotationKey(a) in s.transitions && s.transitions[RotationKey(a)] != s.head {
        return Raised(SequenceMismatch);
      }
      outcome := ReplaceSession(task, a, Created(s, p).value, p);
    }

    /** The three writes of a rotation whose checks passed. */
    method ReplaceSession(task: Id, a: Attempt, successor: Id, p: Provider) returns (outcome: Outcome)
      requires a.session in Composed().sessions && successor !in Composed().sessions
      modifies this
      ensures var s := old(Composed());
        var opening := PredecessorWrites(s, a) + [SuccessorOpened(successor, RotationKey(a))];
        var resume := AttemptResumed(task, successor, a.id);
        var writes := if Accepts(Replay(s, opening), resume) then opening + [resume] else opening;
        && stream == old(stream) + writes
        && Composed() == Replay(s, writes)
        && outcome == if !Accepts(Replay(s, opening), resume) then Raised(CommandRejected)
                      else if p.sendsAgain then Done(Rotated)
                      else Raised(ProviderFailed)
    {
      ghost var s, before := Composed(), stream;
      ghost var opening := PredecessorWrites(s, a) + [SuccessorOpened(successor, RotationKey(a))];
      var resume := AttemptResumed(task, successor, a.id);
      OpenSuccessor(a, successor);
      var accepted := Execute(resume);
      if !accepted {
        return Raised(CommandRejected);
      }
      Joined(before, opening, [resume]);
      ReplayAppend(s, opening, [resume]);
      ReplayOne(Replay(s, opening), resume);
      outcome := if p.sendsAgain then Done(Rotated) else Raised(ProviderFailed);
    }

    /** The predecessor is moved, then the successor opened. */
    method OpenSuccessor(a: Attempt, successor: Id)
      requires a.session in Composed().sessions && successor !in Composed().sessions
      modifies this
      ensures stream == old(stream) + (PredecessorWrites(old(Composed()), a) +
          [SuccessorOpened(successor, RotationKey(a))])
      ensures Composed() ==
              Replay(old(Composed()), PredecessorWrites(old(Composed()), a) +
                [SuccessorOpened(successor, RotationKey(a))])
    {
      ghost var s, before := Composed(), stream;
      ghost var moved := PredecessorWrites(s, a);
      var open := SuccessorOpened(successor, RotationKey(a));
      MovePredecessor(a);
      SameSessions(s, a);
      Joined(before, moved, [open]);
      ReplayAppend(s, moved, [open]);
      ReplayOne(Composed(), open);
      var _ := Execute(open);
    }

    /** The newest open session that was opened for the task, searched backwards. */
    method FindOpenSession(task: Id) returns (found: Option<Id>)
      ensures found == OpenSessionFor(Composed(), Composed().sessionOrder, task)
    {
      var s := Composed();
      var n := |s.sessionOrder|;
      found := None;
      assert s.sessionOrder[..n] == s.sessionOrder;
      while n > 0
        invariant 0 <= n <= |s.sessionOrder|
        invariant OpenSessionFor(s, s.sessionOrder[..n], task) == OpenSessionFor(s, s.sessionOrder, task)
      {
        var last := s.sessionOrder[n - 1];
        assert s.sessionOrder[..n][..n - 1] == s.sessionOrder[..n - 1];
        if IsOpen(s, last) && s.sessions[last].task == Some(task) {
          return Some(last);
        }
        n := n - 1;
      }
      assert s.sessionOrder[..0] == [];
    }

    method StartAttempt(task: Id, session: Id, role: Id, p: Provider) returns (outcome: Outcome)
      modifies this
      ensures stream == old(stream) + StartPlan(old(Composed()), task, session, role, p).writes
      ensures Composed() == Replay(old(Composed()), StartPlan(old(Composed()), task, session, role, p).writes)
      ensures outcome == StartPlan(old(Composed()), task, session, role, p).outcome
    {
      ghost var s, before := Composed(), stream;
      var start := AttemptStarted(task, session);
      var accepted := Execute(start);
      if !accepted {
        return Raised(CommandRejected);
      }
      ReplayCons(s, start, BindPlan(Composed(), FirstAttempt(task, session), role).writes);
      Joined(before, [start], BindPlan(Composed(), FirstAttempt(task, session), role).writes);
      outcome := BindLogicalAgent(FirstAttempt(task, session), role);
      if outcome.Done? {
        outcome := if p.sends then Done(Dispatched) else Raised(ProviderFailed);
      }
    }

    /** An open session of the task, or a new one from the provider. */
    method OpenTaskSession(task: Id, role: Id, p: Provider) returns (session: Option<Id>)
      modifies this
      ensures session == LaunchSession(old(Composed()), task, p)
      ensures session.None? ==> stream == old(stream)
      ensures session.Some? ==>
              && stream == old(stream) + OpeningWrites(old(Composed()), task, role, session.value)
              && Composed() == Replay(old(Composed()), OpeningWrites(old(Composed()), task, role, session.value))
    {
      session := FindOpenSession(task);
      if session.None? {
        session := Created(Composed(), p);
        if session.Some? {
          ReplayOne(Composed(), SessionOpened(session.value, Some(task), Some(role)));
          var _ := Execute(SessionOpened(session.value, Some(task), Some(role)));
        }
      }
    }

    method Launch(task: Id, role: Id, p: Provider) returns (outcome: Outcome)
      modifies this
      ensures stream == old(stream) + LaunchPlan(old(Composed()), task, role, p).writes
      ensures Composed() == Replay(old(Composed()), LaunchPlan(old(Composed()), task, role, p).writes)
      ensures outcome == LaunchPlan(old(Composed()), task, role, p).outcome
    {
      ghost var s, start := Composed(), stream;
      var session := OpenTaskSession(task, role, p);
      if session.None? {
        return Raised(ProviderFailed);
      }
      ghost var opening := OpeningWrites(s, task, role, session.value);
      ghost var rest := StartPlan(Composed(), task, session.value, role, p).writes;
      ReplayAppend(s, opening, rest);
      Joined(start, opening, rest);
      outcome := StartAttempt(task, session.value, role, p);
    }

    method Repair(a: Attempt, role: Id, p: Provider) returns (outcome: Outcome)
      modifies this
      ensures stream == old(stream) + RepairPlan(old(Composed()), a, role, p).writes
      ensures Composed() == Replay(old(Composed()), RepairPlan(old(Composed()), a, role, p).writes)
      ensures outcome == RepairPlan(old(Composed()), a, role, p).outcome
    {
      ghost var start := stream;
      var s := Composed();
      var actual := role;
      if a.session in s.sessions && s.sessions[a.session].agent.Some? {
        actual := s.sessions[a.session].agent.value;
      }
      outcome := BindLogicalAgent(a, actual);
      if outcome.Raised? {
        return;
      }
      if IsOpen(Composed(), a.session) && p.sends {
        return Done(Recovered);
      }
      ghost var bind := BindPlan(s, a, actual).writes;
      ghost var rotate := RotatePlan(Composed(), a.task, p).writes;
      ReplayAppend(s, bind, rotate);
      Joined(start, bind, rotate);
      outcome := RotateSession(a.task, p);
      if outcome.Done? {
        outcome := Done(RepairedByRotation);
      }
    }

    method Provision(task: Id, role: Id, p: Provider) returns (outcome: Outcome)
      modifies this
      ensures stream == old(stream) + ProvisionPlan(old(Composed()), task, role, p).writes
      ensures Composed() == Replay(old(Composed()), ProvisionPlan(old(Composed()), task, role, p).writes)
      ensures outcome == ProvisionPlan(old(Composed()), task, role, p).outcome
    {
      var latest := Latest(Composed(), task);
      if latest.Some? {
        outcome := Repair(latest.value, role, p);
      } else {
        outcome := Launch(task, role, p);
      }
    }

    /** Sorts the ACTIVE tasks into running and resume-ready ones and picks the slot's owner. */
    method SlotOwner() returns (owner: Option<Id>)
      ensures owner == Target(Composed())
    {
      var s := Composed();
      var running, ready: seq<Id> := [], [];
      for i := 0 to |s.taskOrder|
        invariant running == RunningTasks(s, s.taskOrder[..i])
        invariant ready == ResumeReadyTasks(s, s.taskOrder[..i])
      {
        var task := s.taskOrder[i];
        assert s.taskOrder[..i + 1][..i] == s.taskOrder[..i];
        if ActiveNow(s, task) && !WaitsForHuman(s, task) {
          if HasHistory(s, task) {
            ready := ready + [task];
          } else {
            running := running + [task];
          }
        }
      }
      assert s.taskOrder[..|s.taskOrder|] == s.taskOrder;
      owner := if running != [] then Some(running[0]) else if ready != [] then Some(ready[0]) else None;
    }

    /** The serial policy: the first READY task of the report. */
    method SelectReady(report: seq<Id>) returns (task: Option<Id>)
      ensures task == Selected(Composed(), report)
    {
      var i := 0;
      while i < |report| && !ReadyNow(Composed(), report[i])
        invariant i <= |report| && Selected(Composed(), report) == Selected(Composed(), report[i..])
      {
        i := i + 1;
      }
      task := if i < |report| then Some(report[i]) else None;
    }

    method DispatchNext(role: Id, report: seq<Id>, p: Provider) returns (outcome: Outcome)
      modifies this
      ensures stream == old(stream) + DispatchPlan(old(Composed()), role, report, p).writes
      ensures Composed() == Replay(old(Composed()), DispatchPlan(old(Composed()), role, report, p).writes)
      ensures outcome == DispatchPlan(old(Composed()), role, report, p).outcome
    {
      ghost var s, start := Composed(), stream;
      if Composed().current.None? {
        return Raised(PlanRequired);
      }
      var owner := SlotOwner();
      if owner.Some? {
        outcome := Provision(owner.value, role, p);
        return;
      }
      if !p.healthy {
        return Raised(ProviderFailed);
      }
      if PlanFinished(Composed()) {
        return Done(PlanComplete);
      }
      var selected := SelectReady(report);
      if selected.None? {
        return Done(NothingReady);
      }
      SelectedAccepted(s, report);
      var _ := Execute(TaskActivated(selected.value));
      ReplayCons(s, TaskActivated(selected.value), ProvisionPlan(Composed(), selected.value, role, p).writes);
      Joined(start, [TaskActivated(selected.value)], ProvisionPlan(Composed(), selected.value, role, p).writes);
      outcome := Provision(selected.value, role, p);
    }

    method CompleteTask(task: Id, verdict: Verdict) returns (outcome: Outcome)
      modifies this
      ensures stream == old(stream) + CompletePlan(old(Composed()), task, verdict).writes
      ensures Composed() == Replay(old(Composed()), CompletePlan(old(Composed()), task, verdict).writes)
      ensures outcome == CompletePlan(old(Composed()), task, verdict).outcome
    {
      var s := Composed();
      if verdict.Unsupported? {
        return Raised(OutcomeUnsupported);
      }
      if task !in s.tasks {
        return Raised(TaskNotFound);
      }
      if !s.tasks[task].state.Active? {
        return Raised(TaskNotActive);
      }
      var finish := TaskFinished(task, if verdict.Succeed? then Succeeded else Failed);
      var _ := Execute(finish);
      var latest := Latest(Composed(), task);
      ClosingWrites(s, task, verdict, finish, latest);
      if SessionLives(s, latest) {
        var _ := Execute(SessionMoved(latest.value.session, Closed, None));
      }
      outcome := Done(TaskClosed);
    }

    method ReportTaskOutcome(task: Id, attempt: AttemptId, session: Id, verdict: Verdict, report: seq<Id>, p: Provider)
      returns (outcome: Outcome)
      modifies this
      ensures stream == old(stream) + ReportPlan(old(Composed()), task, attempt, session, verdict, report, p).writes
      ensures Composed() == Replay(old(Composed()),
          ReportPlan(old(Composed()), task, attempt, session, verdict, report, p).writes)
      ensures outcome == ReportPlan(old(Composed()), task, attempt, session, verdict, report, p).outcome
    {
      ghost var s, start := Composed(), stream;
      var check := ReportCheck(Composed(), task, attempt, session);
      if check.Some? {
        return Raised(check.value);
      }
      var completed := CompleteTask(task, verdict);
      if completed.Raised? {
        return completed;
      }
      ghost var first := CompletePlan(s, task, verdict).writes;
      ReplayAppend(s, first, DispatchPlan(Composed(), DEFAULT_WORKER_AGENT, report, p).writes);
      Joined(start, first, DispatchPlan(Composed(), DEFAULT_WORKER_AGENT, report, p).writes);
      var next := DispatchNext(DEFAULT_WORKER_AGENT, report, p);
      outcome := if next.Raised? then next else completed;
    }
  }

  lemma {:induction false} Joined(stream: seq<Fact>, first: seq<Fact>, second: seq<Fact>)
    ensures stream + first + second == stream + (first + second)
  {
  }

  lemma {:induction false} SameSessions(s: State, a: Attempt)
    requires a.session in s.sessions
    ensures Replay(s, PredecessorWrites(s, a)).sessions.Keys == s.sessions.Keys
  {
    if PredecessorWrites(s, a) != [] {
      ReplayOne(s, PredecessorWrites(s, a)[0]);
    }
  }

  lemma {:induction false} SelectedAccepted(s: State, report: seq<Id>)
    requires Selected(s, report).Some?
    ensures Accepts(s, TaskActivated(Selected(s, report).value))
  {
    if !ReadyNow(s, report[0]) {
      SelectedAccepted(s, report[1..]);
    }
  }
}

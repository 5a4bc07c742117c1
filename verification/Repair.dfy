/** Provisioning one ACTIVE task: when it succeeds, and what it leaves behind. */
module Repair {
  import opened Prelude
  import opened EventStream
  import opened EventStreamInvariants
  import opened Dispatcher
  import opened DispatcherInvariants

  /** The task has a latest attempt in an open session and one binding for its root. */
  ghost predicate Provisioned(s: State, task: Id) {
    && Latest(s, task).Some?
    && IsOpen(s, Latest(s, task).value.session)
    && Bound(s, Latest(s, task).value.root)
    && (forall i, j :: 0 <= i < j < |s.bindings| ==>
          !(s.bindings[i].root == s.bindings[j].root == Latest(s, task).value.root))
  }

  /**
   What the next dispatch needs in order to repair an ACTIVE task. Without an attempt it can
   always start over. Otherwise the lineage must be bound already or still be bindable, and
   its session open or still be replaceable: no successor opened by an earlier rotation, and
   no event since that rotation moved the predecessor.
   */
  predicate Repairable(s: State, task: Id) {
    match Latest(s, task)
    case None => true
    case Some(a) =>
      && (Bound(s, a.root) || (IsOpen(s, a.session) && a.root !in s.refused))
      && (IsOpen(s, a.session) || Replaceable(s, a))
  }

  predicate Replaceable(s: State, a: Attempt) {
    && RotationKey(a) !in s.openings
    && (RotationKey(a) in s.transitions ==> s.transitions[RotationKey(a)] == s.head)
  }

  lemma {:induction false} UnboundLineage(s: State, a: Attempt)
    requires BindingsUnique(s) && a.root == AttemptId(a.task, 1) && !Bound(s, a.root)
    ensures forall b | b in s.bindings :: b.agent.task != a.task && b.attempt.task != a.task
  {
    forall b | b in s.bindings ensures b.agent.task != a.task && b.attempt.task != a.task {
      var i :| 0 <= i < |s.bindings| && s.bindings[i] == b;
    }
  }

  function BindingFor(a: Attempt, role: Id): (b: Binding) {
    Binding(a.root, LogicalAgent(role, a.task), a.id, a.task, a.session)
  }

  lemma {:induction false} BindAccepted(s: State, a: Attempt, role: Id)
    requires BindingsUnique(s) && a in s.attempts && a.root == AttemptId(a.task, 1) && a.id.task == a.task
    requires !Bound(s, a.root)
    ensures Accepts(s, AgentBound(BindingFor(a, role))) <==> IsOpen(s, a.session)
  {
    UnboundLineage(s, a);
  }

  lemma {:induction false} BindOutcome(s: State, a: Attempt, role: Id)
    requires BindingsUnique(s) && a in s.attempts && a.root == AttemptId(a.task, 1) && a.id.task == a.task
    requires !Bound(s, a.root) && a.root !in s.refused
    ensures IsOpen(s, a.session) ==>
            && BindPlan(s, a, role) == Plan([AgentBound(BindingFor(a, role))], Done(Recorded))
            && Replay(s, BindPlan(s, a, role).writes) ==
            s.(head := s.head + 1, bindings := s.bindings + [BindingFor(a, role)])
    ensures !IsOpen(s, a.session) ==>
            && BindPlan(s, a, role) == Plan([BindingRefused(a.root)], Raised(BindingNotMade))
            && Replay(s, BindPlan(s, a, role).writes) == s.(refused := s.refused + {a.root})
  {
    BindAccepted(s, a, role);
    ReplayOne(s, AgentBound(BindingFor(a, role)));
    ReplayOne(s, BindingRefused(a.root));
  }

  /** The writes of a rotation that can replace the session. */
  function RotationWrites(s: State, a: Attempt, successor: Id): (writes: seq<Fact>)
    requires a.session in s.sessions
  {
    PredecessorWrites(s, a) + [SuccessorOpened(successor, RotationKey(a))] + [AttemptResumed(a.task, successor, a.id)]
  }

  /** The successor is the newest attempt and runs in an open session. */
  lemma {:induction false} SuccessorIsLatest(r: State, a: Attempt, successor: Id)
    requires Latest(r, a.task) == Some(a)
    ensures var r3 := Apply(Apply(r, SuccessorOpened(successor, RotationKey(a))),
        AttemptResumed(a.task, successor, a.id));
      && r3.bindings == r.bindings && IsOpen(r3, successor)
      && Latest(r3, a.task) == Some(Attempt(RotationKey(a), a.task, successor, Some(a.id), a.root, a.ordinal + 1))
  {
    AttemptsOfSnoc(r.attempts, Attempt(RotationKey(a), a.task, successor, Some(a.id), a.root, a.ordinal + 1), a.task);
  }

  lemma {:induction false} RotationReplay(s: State, a: Attempt, successor: Id)
    requires Lineage(s) && Latest(s, a.task) == Some(a) && ActiveNow(s, a.task) && a.session in s.sessions
    requires successor !in s.sessions
    ensures AllLegal(s, RotationWrites(s, a, successor))
    ensures Accepts(Replay(s, PredecessorWrites(s, a) + [SuccessorOpened(successor, RotationKey(a))]),
                    AttemptResumed(a.task, successor, a.id))
    ensures var r := Replay(s, RotationWrites(s, a, successor));
      && r.bindings == s.bindings
      && Latest(r, a.task).Some? && Latest(r, a.task).value.root == a.root
      && IsOpen(r, Latest(r, a.task).value.session)
  {
    PredecessorWritesLegal(s, a);
    var moved := PredecessorWrites(s, a);
    var r := Replay(s, moved);
    SuccessorLegal(s, r, a.task, successor, RotationKey(a));
    TwoMoreLegal(s, moved, SuccessorOpened(successor, RotationKey(a)), AttemptResumed(a.task, successor, a.id));
    SuccessorIsLatest(r, a, successor);
  }

  /** A rotation that can replace the session ends in an open successor of the same lineage. */
  lemma {:induction false} RotationReplaces(s: State, a: Attempt, p: Provider)
    requires Lineage(s) && Latest(s, a.task) == Some(a) && ActiveNow(s, a.task) && a.session in s.sessions
    requires Replaceable(s, a) && Created(s, p).Some?
    ensures RotatePlan(s, a.task, p).writes == RotationWrites(s, a, Created(s, p).value)
    ensures RotatePlan(s, a.task, p).outcome == if p.sendsAgain then Done(Rotated) else Raised(ProviderFailed)
  {
    RotationReplay(s, a, Created(s, p).value);
  }

  lemma {:induction false} StuckRotation(s: State, a: Attempt, p: Provider)
    requires Latest(s, a.task) == Some(a) && a.session in s.sessions && !Replaceable(s, a)
    ensures RotatePlan(s, a.task, p).writes == [] && RotatePlan(s, a.task, p).outcome.Raised?
  {
  }

  /** After a rotation the task is provisioned again, in the lineage it had. */
  lemma {:induction false} RotationProvisions(s: State, a: Attempt, successor: Id)
    requires Lineage(s) && BindingsUnique(s) && Latest(s, a.task) == Some(a) && ActiveNow(s, a.task)
    requires a.session in s.sessions && Bound(s, a.root) && successor !in s.sessions
    ensures var r := Replay(s, RotationWrites(s, a, successor));
      Provisioned(r, a.task) && Latest(r, a.task).value.root == a.root
  {
    RotationReplay(s, a, successor);
  }

  /** A bound lineage whose session can be replaced is rotated into a fresh session. */
  lemma {:induction false} RepairByRotation(s: State, a: Attempt, role: Id, p: Provider)
    requires Lineage(s) && Latest(s, a.task) == Some(a) && ActiveNow(s, a.task)
    requires a.session in s.sessions && Bound(s, a.root) && !IsOpen(s, a.session) && Replaceable(s, a) && Working(s, p)
    ensures RepairPlan(s, a, role, p) == Plan(RotationWrites(s, a, Created(s, p).value), Done(RepairedByRotation))
  {
    RotationReplaces(s, a, p);
    assert BindPlan(s, a, RoleOf(s, a, role)).writes == [];
    assert Replay(s, []) == s;
    assert [] + RotatePlan(s, a.task, p).writes == RotatePlan(s, a.task, p).writes;
  }

  /** An open session is kept; the lineage is bound if it was not. */
  lemma {:induction false} RepairInPlace(s: State, a: Attempt, role: Id, p: Provider)
    requires Lineage(s) && BindingsUnique(s) && Latest(s, a.task) == Some(a) && p.sends
    requires IsOpen(s, a.session) && (Bound(s, a.root) || a.root !in s.refused)
    ensures RepairPlan(s, a, role, p) == Plan(BindPlan(s, a, RoleOf(s, a, role)).writes, Done(Recovered))
    ensures var r := Replay(s, RepairPlan(s, a, role, p).writes);
      Provisioned(r, a.task) && Latest(r, a.task).value.root == a.root
  {
    if !Bound(s, a.root) {
      LatestIsLast(s, a.task);
      BindOutcome(s, a, RoleOf(s, a, role));
      var r := Replay(s, BindPlan(s, a, RoleOf(s, a, role)).writes);
      assert r.bindings[|s.bindings|] in r.bindings;
      forall i | 0 <= i < |s.bindings| ensures s.bindings[i].root != a.root {
        assert s.bindings[i] in s.bindings;
      }
    }
  }

  lemma {:induction false} RepairFails(s: State, a: Attempt, role: Id, p: Provider)
    requires Lineage(s) && BindingsUnique(s) && Latest(s, a.task) == Some(a) && !Repairable(s, a.task)
    ensures RepairPlan(s, a, role, p).outcome.Raised?
    ensures RepairPlan(s, a, role, p).writes in {[], [BindingRefused(a.root)]}
  {
    LatestIsLast(s, a.task);
    if Bound(s, a.root) {
      StuckRotation(s, a, p);
      assert RotatePlan(s, a.task, p).writes == [] + [];
    } else if a.root !in s.refused {
      BindOutcome(s, a, RoleOf(s, a, role));
    }
  }

  // ------------------------------------------------------------------- launching

  /** A first attempt in an open session of its task is started and bound. */
  lemma {:induction false} StartConverges(s: State, task: Id, session: Id, role: Id, p: Provider)
    requires BindingsUnique(s) && AttemptsOf(s.attempts, task) == [] && !HasAttempt(s, AttemptId(task, 1))
    requires IsOpen(s, session) && ActiveNow(s, task) && p.sends
    ensures var a := FirstAttempt(task, session);
      && StartPlan(s, task, session, role, p)
         == Plan([AttemptStarted(task, session), AgentBound(BindingFor(a, role))], Done(Dispatched))
      && Latest(Replay(s, StartPlan(s, task, session, role, p).writes), task) == Some(a)
      && Provisioned(Replay(s, StartPlan(s, task, session, role, p).writes), task)
  {
    var start, a := AttemptStarted(task, session), FirstAttempt(task, session);
    var started := Apply(s, start);
    StartedLineage(s, task, session);
    FirstBinding(started, a, role);
    ReplayCons(s, start, [AgentBound(BindingFor(a, role))]);
  }

  lemma {:induction false} StartedLineage(s: State, task: Id, session: Id)
    requires BindingsUnique(s) && AttemptsOf(s.attempts, task) == []
    ensures var r := Apply(s, AttemptStarted(task, session));
      && BindingsUnique(r) && Latest(r, task) == Some(FirstAttempt(task, session))
      && !Bound(r, AttemptId(task, 1)) && AttemptId(task, 1) !in r.refused
  {
    var f := AttemptStarted(task, session);
    AttemptsOfSnoc(s.attempts, FirstAttempt(task, session), task);
    LineagesNeverEmptied(s, f);
    BindingsFrame(s, Apply(s, f));
    forall b | b in s.bindings ensures b.root != AttemptId(task, 1) {
      var i :| 0 <= i < |s.bindings| && s.bindings[i] == b;
    }
  }

  /** Binding the latest attempt of an unbound lineage in an open session provisions its task. */
  lemma {:induction false} FirstBinding(s: State, a: Attempt, role: Id)
    requires BindingsUnique(s) && Latest(s, a.task) == Some(a) && a.root == AttemptId(a.task, 1) && a.id.task == a.task
    requires IsOpen(s, a.session) && !Bound(s, a.root) && a.root !in s.refused
    ensures BindPlan(s, a, role) == Plan([AgentBound(BindingFor(a, role))], Done(Recorded))
    ensures var r := Replay(s, [AgentBound(BindingFor(a, role))]);
      Latest(r, a.task) == Some(a) && Provisioned(r, a.task)
  {
    AttemptsOfMembers(s.attempts, a.task);
    BindOutcome(s, a, role);
    var r := Replay(s, [AgentBound(BindingFor(a, role))]);
    assert r.bindings[|s.bindings|] in r.bindings;
    forall i | 0 <= i < |s.bindings| ensures s.bindings[i].root != a.root {
      assert s.bindings[i] in s.bindings;
    }
  }

  /** The writes of a launch that goes through: maybe a session, then the attempt, then the binding. */
  function LaunchWrites(s: State, task: Id, role: Id, session: Id): (writes: seq<Fact>) {
    OpeningWrites(s, task, role, session) +
    [AttemptStarted(task, session), AgentBound(BindingFor(FirstAttempt(task, session), role))]
  }

  lemma {:induction false} LaunchConverges(s: State, task: Id, role: Id, p: Provider)
    requires Lineage(s) && BindingsUnique(s) && Latest(s, task).None? && ActiveNow(s, task) && Working(s, p)
    ensures LaunchSession(s, task, p).Some?
    ensures LaunchPlan(s, task, role, p) ==
            Plan(LaunchWrites(s, task, role, LaunchSession(s, task, p).value), Done(Dispatched))
    ensures Provisioned(Replay(s, LaunchPlan(s, task, role, p).writes), task)
  {
    var session := LaunchSession(s, task, p).value;
    var opening := OpeningWrites(s, task, role, session);
    NextNameFree(s, task);
    OpeningLegal(s, task, role, p);
    StartConverges(Replay(s, opening), task, session, role, p);
    ReplayAppend(s, opening, StartPlan(Replay(s, opening), task, session, role, p).writes);
  }

  /** An ACTIVE task with an attempt is provisioned by a working provider if and only if it is repairable. */
  lemma {:induction false} RepairConverges(s: State, a: Attempt, role: Id, p: Provider)
    requires Lineage(s) && BindingsUnique(s) && Latest(s, a.task) == Some(a) && ActiveNow(s, a.task) && Working(s, p)
    ensures var plan := RepairPlan(s, a, role, p);
      var r := Replay(s, plan.writes);
      && (Provisioned(r, a.task) <==> Repairable(s, a.task))
      && (plan.outcome.Done? <==> Repairable(s, a.task))
      && Latest(r, a.task).Some? && Latest(r, a.task).value.root == a.root
  {
    LatestIsLast(s, a.task);
    if !Repairable(s, a.task) {
      RepairFails(s, a, role, p);
      FailedRepairChangesNothing(s, a, role, p);
    } else if IsOpen(s, a.session) {
      RepairInPlace(s, a, role, p);
    } else {
      RepairByRotation(s, a, role, p);
      RotationProvisions(s, a, Created(s, p).value);
    }
  }

  lemma {:induction false} FailedRepairChangesNothing(s: State, a: Attempt, role: Id, p: Provider)
    requires Lineage(s) && BindingsUnique(s) && Latest(s, a.task) == Some(a) && !Repairable(s, a.task)
    ensures var r := Replay(s, RepairPlan(s, a, role, p).writes);
      && r == s.(refused := r.refused) && s.refused <= r.refused
      && !Repairable(r, a.task) && !Provisioned(r, a.task)
  {
    RepairFails(s, a, role, p);
    ReplayOne(s, BindingRefused(a.root));
  }

  /** Both halves together: what one provisioning with a working provider achieves. */
  lemma {:induction false} ProvisionConverges(s: State, task: Id, role: Id, p: Provider)
    requires Lineage(s) && BindingsUnique(s) && ActiveNow(s, task) && Working(s, p)
    ensures var plan := ProvisionPlan(s, task, role, p);
      var r := Replay(s, plan.writes);
      && (Provisioned(r, task) <==> Repairable(s, task))
      && (plan.outcome.Done? <==> Repairable(s, task))
      && Latest(r, task).Some?
      && Latest(r, task).value.root == (if Latest(s, task).Some? then Latest(s, task).value.root
      else AttemptId(task, 1))
  {
    if Latest(s, task).Some? {
      LatestIsLast(s, task);
      RepairConverges(s, Latest(s, task).value, role, p);
    } else {
      LaunchConverges(s, task, role, p);
      LaunchRoot(s, task, role, p);
    }
  }

  lemma {:induction false} LaunchRoot(s: State, task: Id, role: Id, p: Provider)
    requires Lineage(s) && BindingsUnique(s) && Latest(s, task).None? && ActiveNow(s, task) && Working(s, p)
    ensures var r := Replay(s, LaunchPlan(s, task, role, p).writes);
      Latest(r, task).Some? && Latest(r, task).value.root == AttemptId(task, 1)
  {
    LaunchConverges(s, task, role, p);
    var r := Replay(s, LaunchPlan(s, task, role, p).writes);
    LaunchLegal(s, task, role, p);
    FactsKeepLineage(s, LaunchPlan(s, task, role, p).writes);
    LatestIsLast(r, task);
  }

  lemma {:induction false} FactsKeepLineage(s: State, facts: seq<Fact>)
    requires Lineage(s) && AllLegal(s, facts)
    ensures Lineage(Replay(s, facts))
  {
    if facts != [] {
      FactsKeepLineage(s, facts[..|facts| - 1]);
      FactKeepsLineage(Replay(s, facts[..|facts| - 1]), facts[|facts| - 1]);
    }
  }
}

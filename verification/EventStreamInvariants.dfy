/** Every legal fact keeps the stream consistent. */
module EventStreamInvariants {
  import opened Prelude
  import opened EventStream

  // ------------------------------------------------------- what a fact leaves alone

  lemma {:induction false} LineageFrameOf(s: State, f: Fact)
    ensures !f.AttemptStarted? && !f.AttemptResumed? ==> Apply(s, f).attempts == s.attempts
  {
  }

  lemma {:induction false} BindingFrameOf(s: State, f: Fact)
    ensures !f.AgentBound? ==> Apply(s, f).bindings == s.bindings
    ensures !f.BindingRefused? ==> Apply(s, f).refused == s.refused
  {
  }

  lemma {:induction false} SessionFrameOf(s: State, f: Fact)
    ensures var r := Apply(s, f);
      && (!f.SessionOpened? && !f.SuccessorOpened? && !f.SessionMoved? ==> r.sessions == s.sessions)
  {
  }

  lemma {:induction false} TransitionFrameOf(s: State, f: Fact)
    ensures !f.SessionMoved? ==> Apply(s, f).transitions == s.transitions
  {
  }

  lemma {:induction false} OpeningFrameOf(s: State, f: Fact)
    ensures !f.SuccessorOpened? ==> Apply(s, f).openings == s.openings
  {
  }

  lemma {:induction false} GateFrameOf(s: State, f: Fact)
    ensures !f.GateOpened? && !f.GateSettled? && !f.GateContinued? ==> Apply(s, f).gates == s.gates
  {
  }

  lemma {:induction false} TaskFrameOf(s: State, f: Fact)
    ensures !f.RevisionRecorded? && !f.TaskActivated? && !f.TaskFinished? ==> Apply(s, f).tasks == s.tasks
  {
  }

  lemma {:induction false} GraphFrameOf(s: State, f: Fact)
    ensures !f.RevisionRecorded? ==> Apply(s, f).taskOrder == s.taskOrder && Apply(s, f).revisions == s.revisions
    ensures !f.RevisionActivated? ==> Apply(s, f).current == s.current
  {
  }

  /** Each kind of fact changes only its own part of the state. */
  lemma {:induction false} FactFrame(s: State, f: Fact)
    ensures var r := Apply(s, f);
      && (!f.AttemptStarted? && !f.AttemptResumed? ==> r.attempts == s.attempts)
      && (!f.AgentBound? ==> r.bindings == s.bindings)
      && (!f.BindingRefused? ==> r.refused == s.refused)
      && (!f.GateOpened? && !f.GateSettled? && !f.GateContinued? ==> r.gates == s.gates)
      && (!f.SessionOpened? && !f.SuccessorOpened? && !f.SessionMoved? ==> r.sessions == s.sessions)
      && (!f.SessionMoved? ==> r.transitions == s.transitions)
      && (!f.SuccessorOpened? ==> r.openings == s.openings)
      && (!f.RevisionRecorded? && !f.TaskActivated? && !f.TaskFinished? ==> r.tasks == s.tasks)
      && (!f.RevisionRecorded? ==> r.taskOrder == s.taskOrder && r.revisions == s.revisions)
      && (!f.RevisionActivated? ==> r.current == s.current)
  {
    LineageFrameOf(s, f);
    BindingFrameOf(s, f);
    SessionFrameOf(s, f);
    TransitionFrameOf(s, f);
    OpeningFrameOf(s, f);
    GateFrameOf(s, f);
    TaskFrameOf(s, f);
    GraphFrameOf(s, f);
  }

  /** Tasks never return to Pending, leave a terminal state or change revision. */
  ghost predicate TasksGrow(s: State, r: State) {
    forall t | t in s.tasks ::
      && t in r.tasks && r.tasks[t].revision == s.tasks[t].revision
      && (r.tasks[t].state.Pending? ==> s.tasks[t].state.Pending?)
      && (Terminal(s.tasks[t].state) ==> r.tasks[t].state == s.tasks[t].state)
  }

  /** Sessions keep their task and never reopen. */
  ghost predicate SessionsGrow(s: State, r: State) {
    forall k | k in s.sessions ::
      && k in r.sessions && r.sessions[k].task == s.sessions[k].task
      && (r.sessions[k].status.Open? ==> s.sessions[k].status.Open?)
  }

  /** Gates are append-only and a finished gate stays finished. */
  ghost predicate GatesGrow(s: State, r: State) {
    forall g | g in s.gates ::
      && g in r.gates && r.gates[g].task == s.gates[g].task
      && r.gates[g].root == s.gates[g].root && r.gates[g].origin == s.gates[g].origin
      && (s.gates[g].status == Settled(false) ==> r.gates[g].status == Settled(false))
  }

  lemma {:induction false} FactGrows(s: State, f: Fact)
    requires Accepts(s, f)
    ensures TasksGrow(s, Apply(s, f)) && SessionsGrow(s, Apply(s, f)) && GatesGrow(s, Apply(s, f))
  {
    FactGrowsTasks(s, f);
    FactGrowsSessions(s, f);
    FactGrowsGates(s, f);
  }

  lemma {:induction false} FactGrowsTasks(s: State, f: Fact)
    requires Accepts(s, f)
    ensures TasksGrow(s, Apply(s, f))
  {
  }

  lemma {:induction false} FactGrowsSessions(s: State, f: Fact)
    requires Accepts(s, f)
    ensures SessionsGrow(s, Apply(s, f))
  {
  }

  lemma {:induction false} FactGrowsGates(s: State, f: Fact)
    requires Accepts(s, f)
    ensures GatesGrow(s, Apply(s, f))
  {
  }

  /** Attempts are only ever added, so a lineage that exists goes on existing. */
  lemma {:induction false} LineagesGrow(s: State, f: Fact, task: Id)
    ensures AttemptsOf(s.attempts, task) <= AttemptsOf(Apply(s, f).attempts, task)
    ensures forall a | a in s.attempts :: a in Apply(s, f).attempts
  {
    FactFrame(s, f);
    var r := Apply(s, f);
    if r.attempts != s.attempts {
      assert r.attempts == s.attempts + [r.attempts[|s.attempts|]];
      AttemptsOfSnoc(s.attempts, r.attempts[|s.attempts|], task);
    }
  }

  lemma {:induction false} LineagesNeverEmptied(s: State, f: Fact)
    ensures forall t :: AttemptsOf(s.attempts, t) != [] ==> AttemptsOf(Apply(s, f).attempts, t) != []
  {
    forall t ensures AttemptsOf(s.attempts, t) != [] ==> AttemptsOf(Apply(s, f).attempts, t) != [] {
      LineagesGrow(s, f, t);
    }
  }

  // -------------------------------------------------------------------- lineage

  lemma {:induction false} ChainExtends(attempts: seq<Attempt>, a: Attempt)
    requires forall t :: Chain(AttemptsOf(attempts, t), t)
    requires Chain(AttemptsOf(attempts, a.task) + [a], a.task)
    ensures forall t :: Chain(AttemptsOf(attempts + [a], t), t)
  {
    forall t ensures Chain(AttemptsOf(attempts + [a], t), t) {
      AttemptsOfSnoc(attempts, a, t);
      assert AttemptsOf(attempts, t) + [] == AttemptsOf(attempts, t);
    }
  }

  lemma {:induction false} LineageExtends(s: State, r: State, a: Attempt)
    requires Lineage(s) && r == s.(head := r.head, attempts := s.attempts + [a])
    requires Chain(AttemptsOf(s.attempts, a.task) + [a], a.task)
    requires a.task in s.tasks && !s.tasks[a.task].state.Pending? && a.session in s.sessions
    requires s.sessions[a.session].task == (if a.predecessor.None? then Some(a.task) else None)
    requires forall b | b in s.attempts :: b.session != a.session
    ensures Lineage(r)
  {
    ChainExtends(s.attempts, a);
  }

  lemma {:induction false} StartKeepsLineage(s: State, task: Id, session: Id)
    requires Lineage(s) && Legal(s, AttemptStarted(task, session))
    ensures Lineage(Apply(s, AttemptStarted(task, session)))
  {
    AttemptsOfMembers(s.attempts, task);
    forall b | b in s.attempts ensures b.session != session {
      assert b.task != task;
    }
    LineageExtends(s, Apply(s, AttemptStarted(task, session)),
      Attempt(AttemptId(task, 1), task, session, None, AttemptId(task, 1), 1));
  }

  /** The attempt a resumption adds continues the chain of its task. */
  lemma {:induction false} ResumedChain(s: State, task: Id, a: Attempt)
    requires Lineage(s) && Latest(s, task).Some?
    requires var l := Latest(s, task).value;
      a == Attempt(AttemptId(task, l.ordinal + 1), task, a.session, Some(l.id), l.root, l.ordinal + 1)
    ensures Chain(AttemptsOf(s.attempts, task) + [a], task)
  {
    LatestIsLast(s, task);
    assert Chain(AttemptsOf(s.attempts, task), task);
  }

  lemma {:induction false} ResumeKeepsLineage(s: State, task: Id, session: Id, predecessor: AttemptId)
    requires Lineage(s) && Legal(s, AttemptResumed(task, session, predecessor))
    ensures Lineage(Apply(s, AttemptResumed(task, session, predecessor)))
  {
    var l := Latest(s, task).value;
    var a := Attempt(AttemptId(task, l.ordinal + 1), task, session, Some(predecessor), l.root, l.ordinal + 1);
    ResumedChain(s, task, a);
    LineageExtends(s, Apply(s, AttemptResumed(task, session, predecessor)), a);
  }

  lemma {:induction false} LineageFrame(s: State, r: State)
    requires Lineage(s) && r.attempts == s.attempts && TasksGrow(s, r) && SessionsGrow(s, r)
    ensures Lineage(r)
  {
  }

  lemma {:induction false} FactKeepsLineage(s: State, f: Fact)
    requires Lineage(s) && Legal(s, f)
    ensures Lineage(Apply(s, f))
  {
    if f.AttemptStarted? {
      StartKeepsLineage(s, f.task, f.session);
    } else if f.AttemptResumed? {
      ResumeKeepsLineage(s, f.task, f.session, f.predecessor);
    } else {
      FactFrame(s, f);
      FactGrows(s, f);
      LineageFrame(s, Apply(s, f));
    }
  }

  // ------------------------------------------------------------- the task order

  lemma {:induction false} JoinedDistinct<T>(a: seq<T>, b: seq<T>)
    requires forall i, j :: 0 <= i < j < |a| ==> a[i] != a[j]
    requires forall i, j :: 0 <= i < j < |b| ==> b[i] != b[j]
    requires forall t | t in b :: t !in a
    ensures forall i, j :: 0 <= i < j < |a + b| ==> (a + b)[i] != (a + b)[j]
  {
    forall i, j | 0 <= i < j < |a + b| ensures (a + b)[i] != (a + b)[j] {
      if i < |a| <= j {
        assert (a + b)[i] in a && (a + b)[j] in b;
      }
    }
  }

  lemma {:induction false} RevisionKeepsOrder(s: State, revision: Id, order: seq<Id>, needs: map<Id, set<Id>>)
    requires OrderListsTasks(s) && Accepts(s, RevisionRecorded(revision, order, needs))
    ensures OrderListsTasks(Apply(s, RevisionRecorded(revision, order, needs)))
  {
    JoinedDistinct(s.taskOrder, order);
    assert Apply(s, RevisionRecorded(revision, order, needs)).tasks.Keys == s.tasks.Keys + set t | t in order;
  }

  lemma {:induction false} OrderFrame(s: State, r: State)
    requires OrderListsTasks(s) && r.taskOrder == s.taskOrder && r.revisions == s.revisions
    requires r.tasks.Keys == s.tasks.Keys && forall t | t in s.tasks :: r.tasks[t].revision == s.tasks[t].revision
    ensures OrderListsTasks(r)
  {
  }

  lemma {:induction false} FactKeepsOrder(s: State, f: Fact)
    requires OrderListsTasks(s) && Accepts(s, f)
    ensures OrderListsTasks(Apply(s, f))
  {
    if f.RevisionRecorded? {
      RevisionKeepsOrder(s, f.revision, f.order, f.needs);
    } else {
      FactFrame(s, f);
      FactGrows(s, f);
      OrderFrame(s, Apply(s, f));
    }
  }

  // ------------------------------------------------------------------- bindings

  /** The new binding names the root of an attempt of its task. */
  lemma {:induction false} NewBindingIsRooted(s: State, b: Binding)
    requires Lineage(s) && Legal(s, AgentBound(b))
    ensures b.root == AttemptId(b.task, 1) && b.agent.task == b.attempt.task == b.task
    ensures AttemptsOf(s.attempts, b.task) != []
  {
    var a :| a in s.attempts && a.id == b.attempt && a.root == b.root && a.task == b.task;
    AttemptByName(s, a);
  }

  lemma {:induction false} RootsStayDistinct(bindings: seq<Binding>, b: Binding)
    requires forall i, j :: 0 <= i < j < |bindings| ==> bindings[i].root != bindings[j].root
    requires forall other | other in bindings :: other.root != b.root
    ensures forall i, j :: 0 <= i < j < |bindings + [b]| ==> (bindings + [b])[i].root != (bindings + [b])[j].root
  {
  }

  lemma {:induction false} BindingKeepsBindings(s: State, b: Binding)
    requires Lineage(s) && BindingsUnique(s) && Legal(s, AgentBound(b))
    ensures BindingsUnique(Apply(s, AgentBound(b)))
  {
    NewBindingIsRooted(s, b);
    RootsStayDistinct(s.bindings, b);
  }

  lemma {:induction false} BindingsFrame(s: State, r: State)
    requires BindingsUnique(s) && r.bindings == s.bindings
    requires forall root | root in r.refused && root !in s.refused :: AttemptsOf(r.attempts, root.task) != []
    requires forall t :: AttemptsOf(s.attempts, t) != [] ==> AttemptsOf(r.attempts, t) != []
    ensures BindingsUnique(r)
  {
  }

  lemma {:induction false} FactKeepsBindings(s: State, f: Fact)
    requires Lineage(s) && BindingsUnique(s) && Legal(s, f)
    ensures BindingsUnique(Apply(s, f))
  {
    if f.AgentBound? {
      BindingKeepsBindings(s, f.binding);
    } else {
      FactFrame(s, f);
      LineagesNeverEmptied(s, f);
      BindingsFrame(s, Apply(s, f));
    }
  }

  // ---------------------------------------------------------------------- gates

  /** A gate's lineage survives any fact. */
  lemma {:induction false} GateLineageSurvives(s: State, f: Fact, g: Gate)
    requires GateInLineage(s, g)
    ensures GateInLineage(Apply(s, f), g)
  {
    LineagesGrow(s, f, g.task);
  }

  lemma {:induction false} OpenedGateInLineage(s: State, id: Id, g: Gate)
    requires Lineage(s) && Accepts(s, GateOpened(id, g))
    ensures GateInLineage(s, g)
  {
    var a :| a in s.attempts && a.id == g.root && a.root == g.root && a.task == g.task;
    AttemptByName(s, a);
  }

  lemma {:induction false} OpenedGateIsAlone(s: State, id: Id, g: Gate)
    requires GatesExact(s) && Accepts(s, GateOpened(id, g)) && GateInLineage(s, g)
    ensures forall i | i in s.gates && s.gates[i].task == g.task :: s.gates[i].status == Settled(false)
  {
    forall i | i in s.gates && s.gates[i].task == g.task ensures s.gates[i].status == Settled(false) {
      assert GateInLineage(s, s.gates[i]);
    }
  }

  lemma {:induction false} AddedGateExact(s: State, r: State, id: Id, g: Gate)
    requires r == s.(head := r.head, gates := s.gates[id := g]) && GatesExact(s) && GateInLineage(s, g)
    requires forall i | i in s.gates && s.gates[i].task == g.task :: s.gates[i].status == Settled(false)
    ensures GatesExact(r)
  {
    forall i | i in r.gates ensures GateInLineage(r, r.gates[i]) {
      assert i != id ==> GateInLineage(s, s.gates[i]);
    }
  }

  lemma {:induction false} OpeningKeepsGates(s: State, id: Id, g: Gate)
    requires Lineage(s) && GatesExact(s) && Accepts(s, GateOpened(id, g))
    ensures GatesExact(Apply(s, GateOpened(id, g)))
  {
    OpenedGateInLineage(s, id, g);
    OpenedGateIsAlone(s, id, g);
    AddedGateExact(s, Apply(s, GateOpened(id, g)), id, g);
  }

  /** Gates whose lineage fields stay and that only move towards being finished. */
  lemma {:induction false} GatesFrame(s: State, f: Fact)
    requires GatesExact(s) && Apply(s, f).gates.Keys == s.gates.Keys && GatesGrow(s, Apply(s, f))
    ensures GatesExact(Apply(s, f))
  {
    var r := Apply(s, f);
    forall i | i in r.gates ensures GateInLineage(r, r.gates[i]) {
      assert GateInLineage(s, s.gates[i]);
      GateLineageSurvives(s, f, s.gates[i]);
    }
  }

  lemma {:induction false} SameGates(s: State, f: Fact)
    requires !f.GateOpened?
    ensures Apply(s, f).gates.Keys == s.gates.Keys
  {
    GateFrameOf(s, f);
  }

  lemma {:induction false} FactKeepsGates(s: State, f: Fact)
    requires Lineage(s) && GatesExact(s) && Accepts(s, f)
    ensures GatesExact(Apply(s, f))
  {
    if f.GateOpened? {
      OpeningKeepsGates(s, f.gateId, f.gate);
    } else {
      FactGrows(s, f);
      SameGates(s, f);
      GatesFrame(s, f);
    }
  }

  // ------------------------------------------------------------------ rotations

  lemma {:induction false} FactKeepsRotationKeys(s: State, f: Fact)
    requires RotationKeys(s) && Legal(s, f)
    ensures RotationKeys(Apply(s, f))
  {
    var r := Apply(s, f);
    FactFrame(s, f);
    forall key | key in r.transitions || key in r.openings
      ensures key.ordinal <= |AttemptsOf(r.attempts, key.task)| + 1
    {
      LineagesGrow(s, f, key.task);
    }
  }

  /** A new attempt is newer than every rotation recorded so far. */
  lemma {:induction false} NewAttemptUnrotated(s: State, f: Fact, a: Attempt)
    requires Lineage(s) && RotationKeys(s) && Accepts(s, f)
    requires a in Apply(s, f).attempts && a !in s.attempts
    ensures Apply(s, f).transitions == s.transitions
    ensures AttemptId(a.task, a.ordinal + 1) !in s.transitions
  {
    FactFrame(s, f);
    if f.AttemptResumed? {
      LatestIsLast(s, a.task);
    }
  }

  /** Moving the predecessor of a rotation concerns the session of the latest attempt only. */
  lemma {:induction false} MoveKeepsRotationsMoved(s: State, session: Id, status: SessionStatus,
      rotation: Option<AttemptId>)
    requires Lineage(s) && RotationsMoved(s) && Legal(s, SessionMoved(session, status, rotation))
    ensures RotationsMoved(Apply(s, SessionMoved(session, status, rotation)))
  {
    var r := Apply(s, SessionMoved(session, status, rotation));
    forall a | a in s.attempts && AttemptId(a.task, a.ordinal + 1) in r.transitions ensures !IsOpen(r, a.session) {
      if rotation == Some(AttemptId(a.task, a.ordinal + 1)) {
        AttemptByName(s, a);
        LatestIsLast(s, a.task);
      }
    }
  }

  lemma {:induction false} RotationsFrame(s: State, r: State)
    requires Lineage(s) && RotationsMoved(s) && SessionsGrow(s, r) && r.transitions == s.transitions
    requires forall a | a in r.attempts && a !in s.attempts :: AttemptId(a.task, a.ordinal + 1) !in s.transitions
    ensures RotationsMoved(r)
  {
  }

  lemma {:induction false} FactKeepsRotationsMoved(s: State, f: Fact)
    requires Lineage(s) && RotationKeys(s) && RotationsMoved(s) && Legal(s, f)
    ensures RotationsMoved(Apply(s, f))
  {
    if f.SessionMoved? {
      MoveKeepsRotationsMoved(s, f.session, f.status, f.rotation);
    } else {
      FactFrame(s, f);
      FactGrows(s, f);
      forall a | a in Apply(s, f).attempts && a !in s.attempts ensures AttemptId(a.task,
          a.ordinal + 1) !in s.transitions {
        NewAttemptUnrotated(s, f, a);
      }
      RotationsFrame(s, Apply(s, f));
    }
  }

  // ------------------------------------------------------------ the runnable slot

  lemma {:induction false} GatesStay(s: State, r: State)
    requires GatesGrow(s, r)
    ensures forall t :: HasGate(s, t) ==> HasGate(r, t)
  {
    forall t | HasGate(s, t) ensures HasGate(r, t) {
      var id :| id in s.gates && s.gates[id].task == t;
      assert id in r.gates && r.gates[id].task == t;
    }
  }

  lemma {:induction false} ActivationKeepsSlot(s: State, task: Id)
    requires OneRunnable(s) && Legal(s, TaskActivated(task))
    ensures OneRunnable(Apply(s, TaskActivated(task)))
  {
    var r := Apply(s, TaskActivated(task));
    forall u | u in s.tasks && ActiveNow(s, u) ensures HasGate(r, u) {
      assert WaitsForHuman(s, u);
      var id :| id in s.gates && ExactGate(s, s.gates[id], u);
      assert r.gates[id].task == u;
    }
  }

  lemma {:induction false} SlotFrame(s: State, r: State)
    requires OneRunnable(s) && TasksGrow(s, r) && GatesGrow(s, r)
    requires forall t | t in r.tasks && r.tasks[t].state.Active? :: t in s.tasks && s.tasks[t].state.Active?
    ensures OneRunnable(r)
  {
    GatesStay(s, r);
  }

  lemma {:induction false} FactKeepsSlot(s: State, f: Fact)
    requires OneRunnable(s) && Legal(s, f)
    ensures OneRunnable(Apply(s, f))
  {
    if f.TaskActivated? {
      ActivationKeepsSlot(s, f.task);
    } else {
      FactFrame(s, f);
      FactGrows(s, f);
      SlotFrame(s, Apply(s, f));
    }
  }

  // ----------------------------------------------------------------- all together

  lemma {:induction false} FactKeepsConsistent(s: State, f: Fact)
    requires Consistent(s) && Legal(s, f)
    ensures Consistent(Apply(s, f))
  {
    FactKeepsLineage(s, f);
    FactKeepsBindings(s, f);
    FactKeepsGates(s, f);
    FactKeepsRotationKeys(s, f);
    FactKeepsRotationsMoved(s, f);
    FactKeepsSlot(s, f);
    FactKeepsOrder(s, f);
  }

  lemma {:induction false} FactsKeepConsistent(s: State, facts: seq<Fact>)
    requires Consistent(s) && AllLegal(s, facts)
    ensures Consistent(Replay(s, facts))
  {
    if facts != [] {
      FactsKeepConsistent(s, facts[..|facts| - 1]);
      FactKeepsConsistent(Replay(s, facts[..|facts| - 1]), facts[|facts| - 1]);
    }
  }

  /** In a consistent state a task has exact gate history once any gate names it. */
  lemma {:induction false} HistoryIsAnyGate(s: State, task: Id)
    requires Lineage(s) && GatesExact(s)
    ensures HasHistory(s, task) <==> HasGate(s, task)
    ensures WaitsForHuman(s, task) <==>
            exists id :: id in s.gates && s.gates[id].task == task && s.gates[id].status.Waiting?
  {
    forall id | id in s.gates && s.gates[id].task == task ensures ExactGate(s, s.gates[id], task) {
      assert GateInLineage(s, s.gates[id]);
      var a :| a in s.attempts && a.id == s.gates[id].origin && a.task == task;
      AttemptByName(s, a);
      LatestIsLast(s, task);
    }
  }
}

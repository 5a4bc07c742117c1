/**
 The durable event stream under the G2 dispatcher: the facts its commands append,
 the guard each command handler applies before appending, and the state a replay
 rebuilds from the facts. Work graph (R1.2), sessions (R1.1), execution attempts
 (R1.3B), logical-agent bindings (R2.5) and human gates (R2.6) share one stream.
 */
module EventStream {
  import opened Prelude

  type Id = string

  datatype TaskState = Pending | Active | Succeeded | Failed | Cancelled

  predicate Terminal(state: TaskState) {
    state.Succeeded? || state.Failed? || state.Cancelled?
  }

  datatype Task = Task(revision: Id, needs: set<Id>, state: TaskState)

  datatype SessionStatus = Open | Suspended | Closed | Broken

  /** `task` and `agent` are the attributes the opener recorded, if any. */
  datatype Session = Session(status: SessionStatus, task: Option<Id>, agent: Option<Id>)

  /** The name of an attempt; `AttemptName` in module AttemptNames gives its text. */
  datatype AttemptId = AttemptId(task: Id, ordinal: nat)

  datatype Attempt = Attempt(
    id: AttemptId, task: Id, session: Id, predecessor: Option<AttemptId>, root: AttemptId, ordinal: nat)

  /** One worker identity per agent role and task. */
  datatype LogicalAgent = LogicalAgent(role: Id, task: Id)

  datatype Binding = Binding(root: AttemptId, agent: LogicalAgent, attempt: AttemptId, task: Id, session: Id)

  /** A gate is waiting for a human, or settled; a settled gate may still block the next one. */
  datatype GateStatus = Waiting | Settled(blocking: bool)

  datatype Gate = Gate(task: Id, root: AttemptId, origin: AttemptId, status: GateStatus)

  /** `head` counts events. A refused binding is stored with its command but is no event. */
  datatype State = State(
    head: nat,
    tasks: map<Id, Task>, taskOrder: seq<Id>, revisions: set<Id>, current: Option<Id>,
    sessions: map<Id, Session>, sessionOrder: seq<Id>,
    attempts: seq<Attempt>,
    bindings: seq<Binding>, refused: set<AttemptId>,
    transitions: map<AttemptId, nat>, openings: map<AttemptId, Id>,
    gates: map<Id, Gate>)

  const EMPTY := State(0, map[], [], {}, None, map[], [], [], [], {}, map[], map[], map[])

  /** One durable write. A rotation is keyed by the attempt it is going to create. */
  datatype Fact =
    | RevisionRecorded(revision: Id, order: seq<Id>, needs: map<Id, set<Id>>)
    | RevisionActivated(revision: Id)
    | TaskActivated(task: Id)
    | TaskFinished(task: Id, state: TaskState)
    | SessionOpened(session: Id, forTask: Option<Id>, agent: Option<Id>)
    | SessionMoved(session: Id, status: SessionStatus, rotation: Option<AttemptId>)
    | SuccessorOpened(session: Id, key: AttemptId)
    | AttemptStarted(task: Id, session: Id)
    | AttemptResumed(task: Id, session: Id, predecessor: AttemptId)
    | AgentBound(binding: Binding)
    | BindingRefused(root: AttemptId)
    | GateOpened(gateId: Id, gate: Gate)
    | GateSettled(gateId: Id, blocking: bool)
    | GateContinued(gateId: Id)

  // ---------------------------------------------------------------- queries

  /** The attempts of one task, oldest first. */
  function AttemptsOf(attempts: seq<Attempt>, task: Id): (r: seq<Attempt>) {
    if attempts == [] then []
    else
      var last := attempts[|attempts| - 1];
      AttemptsOf(attempts[..|attempts| - 1], task) + if last.task == task then [last] else []
  }

  function Latest(s: State, task: Id): (r: Option<Attempt>) {
    var own := AttemptsOf(s.attempts, task);
    if own == [] then None else Some(own[|own| - 1])
  }

  predicate HasAttempt(s: State, id: AttemptId) {
    exists a | a in s.attempts :: a.id == id
  }

  predicate Bound(s: State, root: AttemptId) {
    exists b | b in s.bindings :: b.root == root
  }

  predicate IsOpen(s: State, session: Id) {
    session in s.sessions && s.sessions[session].status.Open?
  }

  predicate ActiveNow(s: State, task: Id) {
    task in s.tasks && s.tasks[task].state.Active? && s.current == Some(s.tasks[task].revision)
  }

  /** The gates of exactly this task's execution lineage. */
  predicate ExactGate(s: State, g: Gate, task: Id) {
    && g.task == task
    && Latest(s, task).Some?
    && g.root == Latest(s, task).value.root
    && exists a | a in s.attempts :: a.id == g.origin && a.task == task && a.root == g.root
  }

  predicate HasHistory(s: State, task: Id) {
    exists id | id in s.gates :: ExactGate(s, s.gates[id], task)
  }

  predicate WaitsForHuman(s: State, task: Id) {
    exists id | id in s.gates :: ExactGate(s, s.gates[id], task) && s.gates[id].status.Waiting?
  }

  // ------------------------------------------------- handlers and the reducer

  /** Whether the command handler for this fact appends it. */
  predicate Accepts(s: State, f: Fact) {
    match f
    case RevisionRecorded(revision, order, needs) =>
      && revision !in s.revisions
      && (forall i, j :: 0 <= i < j < |order| ==> order[i] != order[j])
      && (forall t | t in order :: t !in s.tasks && t in needs)
    case RevisionActivated(revision) => revision in s.revisions && s.current != Some(revision)
    case TaskActivated(task) =>
      task in s.tasks && s.tasks[task].state.Pending? && s.current == Some(s.tasks[task].revision)
    case TaskFinished(task, state) =>
      && task in s.tasks && Terminal(state)
      && (s.tasks[task].state.Active? || (state.Cancelled? && s.tasks[task].state.Pending?))
    case SessionOpened(session, _, _) => session !in s.sessions
    case SuccessorOpened(session, _) => session !in s.sessions
    case SessionMoved(session, status, _) =>
      && session in s.sessions
      && (s.sessions[session].status.Open? || (s.sessions[session].status.Suspended? && !status.Suspended?))
      && !status.Open?
    case AttemptStarted(task, session) =>
      && IsOpen(s, session) && ActiveNow(s, task)
      && !HasAttempt(s, AttemptId(task, 1))
      && AttemptsOf(s.attempts, task) == []
    case AttemptResumed(task, session, predecessor) =>
      && IsOpen(s, session) && ActiveNow(s, task)
      && Latest(s, task).Some?
      && Latest(s, task).value.id == predecessor
      && !HasAttempt(s, AttemptId(task, Latest(s, task).value.ordinal + 1))
    case AgentBound(b) =>
      && !Bound(s, b.root)
      && IsOpen(s, b.session)
      && (exists a | a in s.attempts ::
            a.id == b.attempt && a.root == b.root && a.task == b.task && a.session == b.session)
      && (forall other | other in s.bindings :: other.agent != b.agent)
      && (forall other | other in s.bindings :: other.attempt == b.attempt ==> other.agent == b.agent)
    case BindingRefused(_) => true
    case GateOpened(id, g) =>
      && id !in s.gates && g.status.Waiting? && ActiveNow(s, g.task)
      && (exists a | a in s.attempts :: a.id == g.root && a.root == g.root && a.task == g.task)
      && (exists a | a in s.attempts :: a.id == g.origin && a.root == g.root && a.task == g.task)
      && (forall other | other in s.gates ::
            s.gates[other].task == g.task && s.gates[other].root == g.root ==>
            s.gates[other].status == Settled(false))
    case GateSettled(id, _) => id in s.gates && s.gates[id].status.Waiting?
    case GateContinued(id) => id in s.gates && s.gates[id].status == Settled(true)
  }

  /** The state after one accepted fact. */
  function Apply(s: State, f: Fact): (r: State) {
    var n := s.(head := s.head + 1);
    match f
    case RevisionRecorded(revision, order, needs) =>
      var added := map t | t in order && t in needs :: Task(revision, needs[t], Pending);
      n.(revisions := s.revisions + {revision}, tasks := s.tasks + added, taskOrder := s.taskOrder + order)
    case RevisionActivated(revision) => n.(current := Some(revision))
    case TaskActivated(task) =>
      if task !in s.tasks then n else n.(tasks := s.tasks[task := s.tasks[task].(state := Active)])
    case TaskFinished(task, state) =>
      if task !in s.tasks then n else n.(tasks := s.tasks[task := s.tasks[task].(state := state)])
    case SessionOpened(session, forTask, agent) =>
      n.(sessions := s.sessions[session := Session(Open, forTask, agent)], sessionOrder := s.sessionOrder + [session])
    case SuccessorOpened(session, key) =>
      n.(sessions := s.sessions[session := Session(Open, None, None)], sessionOrder := s.sessionOrder + [session],
         openings := s.openings[key := session])
    case SessionMoved(session, status, rotation) =>
      if session !in s.sessions then n
      else
        n.(sessions := s.sessions[session := s.sessions[session].(status := status)],
           transitions := if rotation.Some? then s.transitions[rotation.value := s.head + 1] else s.transitions)
    case AttemptStarted(task, session) =>
      var id := AttemptId(task, 1);
      n.(attempts := s.attempts + [Attempt(id, task, session, None, id, 1)])
    case AttemptResumed(task, session, predecessor) =>
      (match Latest(s, task)
       case None => n
       case Some(l) =>
         n.(attempts := s.attempts +
              [Attempt(AttemptId(task, l.ordinal + 1), task, session, Some(predecessor), l.root, l.ordinal + 1)]))
    case AgentBound(b) => n.(bindings := s.bindings + [b])
    case BindingRefused(root) => s.(refused := s.refused + {root})
    case GateOpened(id, g) => n.(gates := s.gates[id := g])
    case GateSettled(id, blocking) =>
      if id !in s.gates then n else n.(gates := s.gates[id := s.gates[id].(status := Settled(blocking))])
    case GateContinued(id) =>
      if id !in s.gates then n else n.(gates := s.gates[id := s.gates[id].(status := Settled(false))])
  }

  /** The state after a list of facts. */
  function Replay(s: State, facts: seq<Fact>): (r: State) {
    if facts == [] then s else Apply(Replay(s, facts[..|facts| - 1]), facts[|facts| - 1])
  }

  // -------------------------------------------------- what every fact keeps

  /** Oldest to newest: ordinals 1, 2, 3, ..., each resumed from the one before, one root. */
  ghost predicate Chain(own: seq<Attempt>, task: Id) {
    forall i :: 0 <= i < |own| ==>
      && own[i].task == task
      && own[i].ordinal == i + 1
      && own[i].id == AttemptId(task, i + 1)
      && own[i].root == AttemptId(task, 1)
      && own[i].predecessor == (if i == 0 then None else Some(AttemptId(task, i)))
  }

  /**
   Attempts form chains of tasks that have left Pending. A first attempt runs in a session
   opened for its task, a resumed one in a session opened by a rotation, and no two attempts
   share a session.
   */
  ghost predicate Lineage(s: State) {
    && (forall t :: Chain(AttemptsOf(s.attempts, t), t))
    && (forall a | a in s.attempts ::
          && a.task in s.tasks && !s.tasks[a.task].state.Pending?
          && a.session in s.sessions
          && s.sessions[a.session].task == (if a.predecessor.None? then Some(a.task) else None))
    && (forall a, b | a in s.attempts && b in s.attempts :: a.session == b.session ==> a == b)
  }

  /** The name the next attempt of the task will get. */
  predicate NextKey(s: State, key: AttemptId) {
    key.ordinal == |AttemptsOf(s.attempts, key.task)| + 1
  }

  /** What the dispatcher adds to the guards of the command handlers. */
  ghost predicate DispatcherRule(s: State, f: Fact) {
    match f
    case TaskActivated(_) => forall t | t in s.tasks && ActiveNow(s, t) :: WaitsForHuman(s, t)
    case AttemptStarted(task, session) => session in s.sessions && s.sessions[session].task == Some(task)
    case AttemptResumed(_, session, _) =>
      && session in s.sessions && s.sessions[session].task == None
      && forall a | a in s.attempts :: a.session != session
    case AgentBound(b) => b.agent.task == b.task
    case BindingRefused(root) => AttemptsOf(s.attempts, root.task) != []
    case SessionMoved(session, _, Some(key)) =>
      Latest(s, key.task).Some? && Latest(s, key.task).value.session == session && NextKey(s, key)
    case SuccessorOpened(_, key) => Latest(s, key.task).Some? && NextKey(s, key)
    case _ => true
  }

  /** A binding names the root of an attempt of its task, and no root is bound twice. */
  ghost predicate BindingsUnique(s: State) {
    && (forall i :: 0 <= i < |s.bindings| ==>
          && s.bindings[i].root == AttemptId(s.bindings[i].task, 1)
          && s.bindings[i].agent.task == s.bindings[i].attempt.task == s.bindings[i].task
          && AttemptsOf(s.attempts, s.bindings[i].task) != [])
    && (forall root | root in s.refused :: AttemptsOf(s.attempts, root.task) != [])
    && (forall i, j :: 0 <= i < j < |s.bindings| ==> s.bindings[i].root != s.bindings[j].root)
  }

  /** The root and the origin of the gate are attempts of its task. */
  ghost predicate GateInLineage(s: State, g: Gate) {
    && g.root == AttemptId(g.task, 1)
    && AttemptsOf(s.attempts, g.task) != []
    && exists a :: a in s.attempts && a.id == g.origin && a.task == g.task
  }

  /** At most one gate of a task is unfinished or keeps the next one from opening. */
  ghost predicate GatesExact(s: State) {
    && (forall id | id in s.gates :: GateInLineage(s, s.gates[id]))
    && (forall i, j | i in s.gates && j in s.gates && i != j && s.gates[i].task == s.gates[j].task ::
          s.gates[i].status == Settled(false) || s.gates[j].status == Settled(false))
  }

  /** A rotation is recorded only for the attempt it was about to create. */
  ghost predicate RotationKeys(s: State) {
    forall key | key in s.transitions || key in s.openings :: key.ordinal <= |AttemptsOf(s.attempts, key.task)| + 1
  }

  /** A rotation that moved its predecessor left that session no longer open. */
  ghost predicate RotationsMoved(s: State) {
    forall a | a in s.attempts :: AttemptId(a.task, a.ordinal + 1) in s.transitions ==> !IsOpen(s, a.session)
  }

  predicate HasGate(s: State, task: Id) {
    exists id | id in s.gates :: s.gates[id].task == task
  }

  /** Per plan revision, at most one ACTIVE task was never behind a gate. */
  ghost predicate OneRunnable(s: State) {
    forall t, u | t in s.tasks && u in s.tasks && t != u
        && s.tasks[t].state.Active? && s.tasks[u].state.Active? && s.tasks[t].revision == s.tasks[u].revision ::
      HasGate(s, t) || HasGate(s, u)
  }

  ghost predicate OrderListsTasks(s: State) {
    && (forall t :: t in s.taskOrder <==> t in s.tasks)
    && (forall i, j :: 0 <= i < j < |s.taskOrder| ==> s.taskOrder[i] != s.taskOrder[j])
    && (forall t | t in s.tasks :: s.tasks[t].revision in s.revisions)
  }

  ghost predicate Consistent(s: State) {
    && Lineage(s) && BindingsUnique(s) && GatesExact(s)
    && RotationKeys(s) && RotationsMoved(s) && OneRunnable(s) && OrderListsTasks(s)
  }

  /** A fact the dispatcher may append: its handler accepts it and it keeps the dispatcher's rule. */
  ghost predicate Legal(s: State, f: Fact) {
    Accepts(s, f) && DispatcherRule(s, f)
  }

  /** Every fact of the list is legal when its turn comes. */
  ghost predicate AllLegal(s: State, facts: seq<Fact>) {
    facts == [] || (AllLegal(s, facts[..|facts| - 1]) && Legal(Replay(s, facts[..|facts| - 1]), facts[|facts| - 1]))
  }

  lemma {:induction false} ReplayAppend(s: State, first: seq<Fact>, second: seq<Fact>)
    ensures Replay(s, first + second) == Replay(Replay(s, first), second)
    ensures AllLegal(s, first + second) <==> AllLegal(s, first) && AllLegal(Replay(s, first), second)
  {
    if second == [] {
      assert first + second == first;
    } else {
      var front := second[..|second| - 1];
      ReplayAppend(s, first, front);
      assert (first + second)[..|first + second| - 1] == first + front;
    }
  }

  lemma {:induction false} ReplayOne(s: State, f: Fact)
    ensures Replay(s, [f]) == Apply(s, f)
    ensures AllLegal(s, [f]) <==> Legal(s, f)
  {
    assert [f][..0] == [];
    assert Replay(s, []) == s;
  }

  lemma {:induction false} ReplayCons(s: State, f: Fact, rest: seq<Fact>)
    ensures Replay(s, [f] + rest) == Replay(Apply(s, f), rest)
    ensures AllLegal(s, [f] + rest) <==> Legal(s, f) && AllLegal(Apply(s, f), rest)
  {
    ReplayAppend(s, [f], rest);
    ReplayOne(s, f);
  }

  /** A prefix that reaches into the second of two lists. */
  lemma {:induction false} ReplayJoinPrefix(s: State, first: seq<Fact>, second: seq<Fact>, k: nat)
    requires k <= |second|
    ensures Replay(s, (first + second)[..|first| + k]) == Replay(Replay(s, first), second[..k])
    ensures k > 0 ==> (first + second)[|first| + k - 1] == second[k - 1]
  {
    assert (first + second)[..|first| + k] == first + second[..k];
    ReplayAppend(s, first, second[..k]);
  }

  lemma {:induction false} LegalPrefix(s: State, facts: seq<Fact>, k: nat)
    requires AllLegal(s, facts) && k <= |facts|
    ensures AllLegal(s, facts[..k])
  {
    var first, second := facts[..k], facts[k..];
    assert first + second == facts;
    ReplayAppend(s, first, second);
  }

  // AttemptsOf as a subsequence

  lemma {:induction false} AttemptsOfMembers(attempts: seq<Attempt>, task: Id)
    ensures forall a :: a in AttemptsOf(attempts, task) <==> a in attempts && a.task == task
  {
    if attempts != [] {
      AttemptsOfMembers(attempts[..|attempts| - 1], task);
      assert attempts == attempts[..|attempts| - 1] + [attempts[|attempts| - 1]];
    }
  }

  lemma {:induction false} AttemptsOfSnoc(attempts: seq<Attempt>, a: Attempt, task: Id)
    ensures AttemptsOf(attempts + [a], task) == AttemptsOf(attempts, task) + if a.task == task then [a] else []
  {
    assert (attempts + [a])[..|attempts|] == attempts;
  }

  /** In a consistent state the k-th attempt of a task is the one its name says. */
  lemma {:induction false} AttemptByName(s: State, a: Attempt)
    requires Lineage(s) && a in s.attempts
    ensures a.id.task == a.task && a.id.ordinal == a.ordinal >= 1
    ensures a.root == AttemptId(a.task, 1)
    ensures a.ordinal <= |AttemptsOf(s.attempts, a.task)|
    ensures a == AttemptsOf(s.attempts, a.task)[a.ordinal - 1]
  {
    AttemptsOfMembers(s.attempts, a.task);
    var own := AttemptsOf(s.attempts, a.task);
    assert Chain(own, a.task);
    var i :| 0 <= i < |own| && own[i] == a;
    assert own[i].ordinal == i + 1;
    assert own[i].id == AttemptId(a.task, i + 1);
  }

  /** Attempt names are distinct across the whole stream. */
  lemma {:induction false} AttemptNamesDistinct(s: State, a: Attempt, b: Attempt)
    requires Lineage(s) && a in s.attempts && b in s.attempts && a.id == b.id
    ensures a == b
  {
    AttemptByName(s, a);
    AttemptByName(s, b);
  }

  lemma {:induction false} LatestIsLast(s: State, task: Id)
    requires Lineage(s) && Latest(s, task).Some?
    ensures var l := Latest(s, task).value;
      && l in s.attempts && l.task == task && l.id == AttemptId(task, l.ordinal)
      && l.root == AttemptId(task, 1) && l.ordinal == |AttemptsOf(s.attempts, task)|
      && l.session in s.sessions && task in s.tasks
  {
    AttemptsOfMembers(s.attempts, task);
    assert Chain(AttemptsOf(s.attempts, task), task);
  }

  /** The name the next attempt of a task would get is never taken. */
  lemma {:induction false} NextNameFree(s: State, task: Id)
    requires Lineage(s)
    ensures !HasAttempt(s, AttemptId(task, |AttemptsOf(s.attempts, task)| + 1))
  {
    if HasAttempt(s, AttemptId(task, |AttemptsOf(s.attempts, task)| + 1)) {
      var a :| a in s.attempts && a.id == AttemptId(task, |AttemptsOf(s.attempts, task)| + 1);
      AttemptByName(s, a);
    }
  }
}

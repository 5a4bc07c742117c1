/** Attempts as the only authors of a task's outcome, and outcomes that are given once. */
module TaskOutcomes {
  import opened Prelude
  import opened EventStream
  import opened EventStreamInvariants
  import opened Dispatcher
  import opened DispatcherInvariants

  /**
   Attempt lineage: after any run, with crashes anywhere, the attempts of a task are one chain.
   The i-th has ordinal i, was resumed from the one before it and shares the first one's id as
   its root; all attempts on record differ in their ids and in their sessions.
   */
  lemma {:induction false} OneChainPerTask(steps: seq<Step>, task: Id, i: nat, a: Attempt, b: Attempt)
    requires i < |AttemptsOf(Run(EMPTY, steps).attempts, task)|
    requires a in Run(EMPTY, steps).attempts && b in Run(EMPTY, steps).attempts && a != b
    ensures var own := AttemptsOf(Run(EMPTY, steps).attempts, task);
      && own[i].task == task && own[i].ordinal == i + 1 && own[i].root == own[0].id
      && own[i].predecessor == (if i == 0 then None else Some(own[i - 1].id))
    ensures a.id != b.id && a.session != b.session
  {
    var s := Run(EMPTY, steps);
    RunConsistent(steps);
    assert Chain(AttemptsOf(s.attempts, task), task);
    if a.id == b.id {
      AttemptNamesDistinct(s, a, b);
    }
  }

  lemma {:induction false} StaleCheck(s: State, stale: Attempt, attempt: AttemptId, session: Id)
    requires Lineage(s) && stale in s.attempts && Latest(s, stale.task) != Some(stale)
    requires attempt == stale.id || session == stale.session
    ensures ReportCheck(s, stale.task, attempt, session) in {Some(AttemptMismatch), Some(SessionMismatch)}
  {
    AttemptByName(s, stale);
    LatestIsLast(s, stale.task);
    var a := Latest(s, stale.task).value;
    if attempt == a.id {
      if attempt == stale.id {
        AttemptNamesDistinct(s, a, stale);
      }
    }
  }

  /** A report that names a rotated-away attempt, or its session, is refused and writes nothing. */
  lemma {:induction false} RotatedAwayRejected(
      steps: seq<Step>, stale: Attempt, attempt: AttemptId, session: Id, verdict: Verdict, report: seq<Id>, p: Provider)
    requires stale in Run(EMPTY, steps).attempts && Latest(Run(EMPTY, steps), stale.task) != Some(stale)
    requires attempt == stale.id || session == stale.session
    ensures var plan := ReportPlan(Run(EMPTY, steps), stale.task, attempt, session, verdict, report, p);
      plan.writes == [] && plan.outcome in {Raised(AttemptMismatch), Raised(SessionMismatch)}
  {
    RunConsistent(steps);
    StaleCheck(Run(EMPTY, steps), stale, attempt, session);
  }

  predicate Finishes(f: Fact, task: Id) {
    f.TaskFinished? && f.task == task
  }

  /** The outcome a report records comes first among its writes. */
  predicate RecordsOutcome(s: State, step: Step, task: Id) {
    && step.op.Report? && step.op.task == task
    && Take(PlanOf(s, step.op).writes, step.survives) != []
  }

  /**
   A report that records anything names the attempt that is the latest at that moment and the
   session it runs in, and its first write finishes the ACTIVE task as the report says.
   */
  lemma {:induction false} AcceptedReportNamesLatest(s: State, step: Step, task: Id)
    requires RecordsOutcome(s, step, task)
    ensures var op := step.op;
      && Latest(s, task).Some? && Latest(s, task).value.id == op.attempt && Latest(s, task).value.session == op.session
      && task in s.tasks && s.tasks[task].state.Active?
      && PlanOf(s, op).writes[0] == TaskFinished(task, if op.verdict.Succeed? then Succeeded else Failed)
  {
  }

  lemma {:induction false} FactsGrowTasks(s: State, facts: seq<Fact>)
    requires AllLegal(s, facts)
    ensures TasksGrow(s, Replay(s, facts))
  {
    if facts != [] {
      FactsGrowTasks(s, facts[..|facts| - 1]);
      FactGrowsTasks(Replay(s, facts[..|facts| - 1]), facts[|facts| - 1]);
    }
  }

  /** Everything a run has made durable, in order. */
  function Journal(s: State, steps: seq<Step>): (facts: seq<Fact>) {
    if steps == [] then []
    else
      var front := steps[..|steps| - 1];
      Journal(s, front) + Take(PlanOf(Run(s, front), steps[|steps| - 1].op).writes, steps[|steps| - 1].survives)
  }

  /** The state of a run is the replay of its journal, and every fact in it was legal in its turn. */
  lemma {:induction false} RunIsReplay(steps: seq<Step>)
    ensures Run(EMPTY, steps) == Replay(EMPTY, Journal(EMPTY, steps))
    ensures AllLegal(EMPTY, Journal(EMPTY, steps))
  {
    if steps != [] {
      var front, last := steps[..|steps| - 1], steps[|steps| - 1];
      var s := Run(EMPTY, front);
      RunIsReplay(front);
      RunConsistent(front);
      PlanLegal(s, last.op);
      var writes := PlanOf(s, last.op).writes;
      if last.survives < |writes| {
        LegalPrefix(s, writes, last.survives);
      }
      ReplayAppend(EMPTY, Journal(EMPTY, front), Take(writes, last.survives));
    }
  }

  /** Once finished, a task is never finished again. */
  lemma {:induction false} FinishedOnce(s: State, first: Fact, later: seq<Fact>, second: Fact, task: Id)
    requires Legal(s, first) && Finishes(first, task)
    requires AllLegal(Apply(s, first), later) && Legal(Replay(Apply(s, first), later), second)
    ensures !Finishes(second, task)
  {
    FactsGrowTasks(Apply(s, first), later);
  }

  lemma {:induction false} FinishedOnceInJournal(s: State, facts: seq<Fact>, task: Id, i: nat, j: nat)
    requires AllLegal(s, facts) && i < j < |facts| && Finishes(facts[i], task)
    ensures !Finishes(facts[j], task)
  {
    var before, later := facts[..i], facts[i + 1..j];
    assert facts == (before + ([facts[i]] + later)) + ([facts[j]] + facts[j + 1..]);
    ReplayAppend(s, before + ([facts[i]] + later), [facts[j]] + facts[j + 1..]);
    ReplayAppend(s, before, [facts[i]] + later);
    ReplayCons(Replay(s, before), facts[i], later);
    ReplayCons(Replay(s, before + ([facts[i]] + later)), facts[j], facts[j + 1..]);
    FinishedOnce(Replay(s, before), facts[i], later, facts[j], task);
  }

  /**
   Unique outcome: in the journal of any run, with rotations, reports, completions by hand,
   cancellations and crashes anywhere, a task is finished at most once.
   */
  lemma {:induction false} OutcomeUnique(steps: seq<Step>, task: Id, i: nat, j: nat)
    requires i < |Journal(EMPTY, steps)| && j < |Journal(EMPTY, steps)|
    requires Finishes(Journal(EMPTY, steps)[i], task) && Finishes(Journal(EMPTY, steps)[j], task)
    ensures i == j
  {
    RunIsReplay(steps);
    if i < j {
      FinishedOnceInJournal(EMPTY, Journal(EMPTY, steps), task, i, j);
    } else if j < i {
      FinishedOnceInJournal(EMPTY, Journal(EMPTY, steps), task, j, i);
    }
  }

  /** At most one report on a task is ever accepted. */
  lemma {:induction false} OneAcceptedReport(steps: seq<Step>, task: Id, m: nat, n: nat)
    requires m < n < |steps|
    requires RecordsOutcome(Run(EMPTY, steps[..m]), steps[m], task)
    ensures !RecordsOutcome(Run(EMPTY, steps[..n]), steps[n], task)
  {
    RunConsistent(steps[..m]);
    TerminalAfterReport(Run(EMPTY, steps[..m]), steps[m], task);
    RunUpTo(steps, m, n);
    TerminalStays(steps[..n], task, m + 1);
    TerminalRefusesReports(Run(EMPTY, steps[..n]), steps[n], task);
  }

  lemma {:induction false} RunUpTo(steps: seq<Step>, m: nat, n: nat)
    requires m < n <= |steps|
    ensures Run(EMPTY, steps[..n][..m + 1]) == After(Run(EMPTY, steps[..m]), steps[m])
  {
    PrefixOfPrefix(steps, m, n);
    RunLast(EMPTY, steps[..n][..m + 1]);
  }

  lemma {:induction false} PrefixOfPrefix<T>(s: seq<T>, m: nat, n: nat)
    requires m < n <= |s|
    ensures var p := s[..n][..m + 1]; |p| == m + 1 && p[..m] == s[..m] && p[m] == s[m]
  {
  }

  lemma {:induction false} TerminalRefusesReports(s: State, step: Step, task: Id)
    requires IsTerminal(s, task)
    ensures !RecordsOutcome(s, step, task)
  {
    if RecordsOutcome(s, step, task) {
      AcceptedReportNamesLatest(s, step, task);
    }
  }

  predicate IsTerminal(s: State, task: Id) {
    task in s.tasks && Terminal(s.tasks[task].state)
  }

  lemma {:induction false} TerminalAfterReport(s: State, step: Step, task: Id)
    requires RecordsOutcome(s, step, task) && Consistent(s)
    ensures IsTerminal(After(s, step), task)
  {
    var writes := PlanOf(s, step.op).writes;
    var kept := Take(writes, step.survives);
    AcceptedReportNamesLatest(s, step, task);
    PlanLegal(s, step.op);
    LegalPrefix(s, writes, |kept|);
    assert kept == writes[..|kept|];
    FinishedFirst(s, kept, task);
  }

  /** Once its first write has finished the task, the rest leaves it finished. */
  lemma {:induction false} FinishedFirst(s: State, facts: seq<Fact>, task: Id)
    requires AllLegal(s, facts) && facts != [] && Finishes(facts[0], task)
    ensures IsTerminal(Replay(s, facts), task)
  {
    HeadAndTail(facts);
    ReplayCons(s, facts[0], facts[1..]);
    FactsGrowTasks(Apply(s, facts[0]), facts[1..]);
  }

  lemma {:induction false} HeadAndTail<T>(s: seq<T>)
    requires s != []
    ensures s == [s[0]] + s[1..]
  {
  }

  lemma {:induction false} TerminalStays(steps: seq<Step>, task: Id, m: nat)
    requires m <= |steps| && IsTerminal(Run(EMPTY, steps[..m]), task)
    ensures IsTerminal(Run(EMPTY, steps), task)
  {
    if m == |steps| {
      assert steps[..m] == steps;
    } else {
      var front, last := steps[..|steps| - 1], steps[|steps| - 1];
      assert front[..m] == steps[..m];
      TerminalStays(front, task, m);
      var s := Run(EMPTY, front);
      RunConsistent(front);
      PlanLegal(s, last.op);
      var kept := Take(PlanOf(s, last.op).writes, last.survives);
      LegalPrefix(s, PlanOf(s, last.op).writes, |kept|);
      assert kept == PlanOf(s, last.op).writes[..|kept|];
      FactsGrowTasks(s, kept);
    }
  }

  /** The task's latest session is one that a completion has to close. */
  predicate LatestLive(s: State, task: Id) {
    && Latest(s, task).Some? && Latest(s, task).value.session in s.sessions
    && s.sessions[Latest(s, task).value.session].status in {Open, Suspended}
  }

  function FinishOf(task: Id, verdict: Verdict): (f: Fact) {
    TaskFinished(task, if verdict.Succeed? then Succeeded else Failed)
  }

  /** The outcome alone, or the outcome and the closing of the latest session. */
  lemma {:induction false} CompletionShape(s: State, task: Id, verdict: Verdict)
    requires CompletePlan(s, task, verdict).outcome.Done?
    ensures task in s.tasks && s.tasks[task].state.Active?
    ensures CompletePlan(s, task, verdict).writes ==
            [FinishOf(task, verdict)] +
            if LatestLive(s, task) then [SessionMoved(Latest(s, task).value.session, Closed, None)] else []
  {
    assert Latest(Apply(s, FinishOf(task, verdict)), task) == Latest(s, task);
  }

  lemma {:induction false} FinishFrame(s: State, task: Id, verdict: Verdict)
    requires task in s.tasks
    ensures var r := Apply(s, FinishOf(task, verdict));
      && r.tasks == s.tasks[task := s.tasks[task].(state := if verdict.Succeed? then Succeeded else Failed)]
      && r == s.(head := r.head, tasks := r.tasks)
  {
  }

  /**
   A completion that goes through gives the task the outcome asked for, and closes its latest
   session if that was open or suspended; no other task and no other session changes.
   */
  lemma {:induction false} CompletionCloses(s: State, task: Id, verdict: Verdict)
    requires CompletePlan(s, task, verdict).outcome.Done?
    ensures task in s.tasks && s.tasks[task].state.Active?
    ensures var r := Replay(s, CompletePlan(s, task, verdict).writes);
      && r.tasks == s.tasks[task := s.tasks[task].(state := if verdict.Succeed? then Succeeded else Failed)]
      && r.sessions == (if LatestLive(s, task)
                        then s.sessions[Latest(s, task).value.session :=
                          s.sessions[Latest(s, task).value.session].(status := Closed)]
                        else s.sessions)
  {
    CompletionShape(s, task, verdict);
    FinishFrame(s, task, verdict);
    var finish := FinishOf(task, verdict);
    ReplayOne(s, finish);
    if LatestLive(s, task) {
      var close := SessionMoved(Latest(s, task).value.session, Closed, None);
      ReplayCons(s, finish, [close]);
      ReplayOne(Apply(s, finish), close);
    } else {
      assert [finish] + [] == [finish];
    }
  }
}

/** The run ledger: one row per case, the last status written, and the accounting gate. */
module Ledger {
  import opened Prelude

  type Id = string

  datatype Status =
    | Planned | Selected | NotSelected | Blocked | Skipped | NotApplicable
    | ExecutedPass | ExecutedFail | Aborted | NeedsHuman

  const STATUSES: set<Status> := {Planned, Selected, NotSelected, Blocked, Skipped, NotApplicable,
                                  ExecutedPass, ExecutedFail, Aborted, NeedsHuman}

  datatype Row = Row(caseId: Id, status: Status)

  datatype Entry = Entry(run: Id, caseId: Id, status: Status)

  datatype Summary = Summary(
    designedTotal: int, currentScope: nat, executed: nat, counts: map<Status, nat>,
    scopeConserved: bool, executionConserved: bool, ok: bool)

  datatype Verdict = Running | RunPass | RunFail

  datatype Completion = Completed(verdict: Verdict) | GateFailed | RunNotFound

  /** Inserts a row, or overwrites the status of the case's row. */
  function Upsert(rows: seq<Row>, caseId: Id, status: Status): (r: seq<Row>) {
    if rows == [] then [Row(caseId, status)]
    else if rows[0].caseId == caseId then [Row(caseId, status)] + rows[1..]
    else [rows[0]] + Upsert(rows[1..], caseId, status)
  }

  function Count(rows: seq<Row>, status: Status): (n: nat) {
    if rows == [] then 0
    else Count(rows[..|rows| - 1], status) + if rows[|rows| - 1].status == status then 1 else 0
  }

  function CurrentScope(rows: seq<Row>): (n: nat) {
    Count(rows, Selected) + Count(rows, Blocked) + Count(rows, Skipped) + Count(rows, ExecutedPass)
    + Count(rows, ExecutedFail) + Count(rows, Aborted) + Count(rows, NeedsHuman)
  }

  /** The total the accounting gate expects. */
  function Expected(rows: seq<Row>, designed: Option<int>): (n: int) {
    if designed.Some? then designed.value else |rows|
  }

  /** Each status with the number of rows that have it. */
  ghost predicate Histogram(counts: map<Status, nat>, rows: seq<Row>) {
    forall s: Status :: s in counts && counts[s] == Count(rows, s)
  }

  lemma {:induction false} EveryStatus()
    ensures forall s: Status :: s in STATUSES
  {
    forall s: Status ensures s in STATUSES {
      match s
      case Planned | Selected | NotSelected | Blocked | Skipped =>
      case NotApplicable | ExecutedPass | ExecutedFail | Aborted | NeedsHuman =>
    }
  }

  lemma {:induction false} CountSnoc(rows: seq<Row>, row: Row)
    ensures forall s :: Count(rows + [row], s) == Count(rows, s) + if row.status == s then 1 else 0
  {
    assert (rows + [row])[..|rows|] == rows;
  }

  class RunLedger {
    var runs: map<Id, Verdict>
    var rows: map<Id, seq<Row>>
    /** Every result recorded so far, in order. */
    ghost var log: seq<Entry>

    /** The rows are what the recorded results add up to. */
    ghost predicate Valid()
      reads this
    {
      forall run :: RowsOf(run) == Recorded(log, run)
    }

    constructor ()
      ensures Valid() && runs == map[] && log == []
    {
      runs, rows, log := map[], map[], [];
    }

    function RowsOf(run: Id): (r: seq<Row>)
      reads this
    {
      if run in rows then rows[run] else []
    }

    method CreateRun(run: Id)
      requires Valid()
      modifies this
      ensures Valid() && log == old(log)
      ensures runs == old(runs)[run := Running]
    {
      runs := runs[run := Running];
    }

    method Record(run: Id, caseId: Id, status: Status)
      requires Valid()
      modifies this
      ensures Valid() && log == old(log) + [Entry(run, caseId, status)]
      ensures runs == old(runs)
    {
      rows := rows[run := Upsert(RowsOf(run), caseId, status)];
      log := log + [Entry(run, caseId, status)];
      assert log[..|log| - 1] == old(log);
    }

    method Summarize(run: Id, designed: Option<int>) returns (summary: Summary)
      ensures Histogram(summary.counts, RowsOf(run))
      ensures summary.designedTotal == Expected(RowsOf(run), designed)
      ensures summary.currentScope == CurrentScope(RowsOf(run))
      ensures summary.executed == Count(RowsOf(run), ExecutedPass) + Count(RowsOf(run), ExecutedFail)
      ensures summary.executionConserved
      ensures summary.ok == summary.scopeConserved == (Expected(RowsOf(run), designed) == |RowsOf(run)|)
    {
      var all := RowsOf(run);
      var counts: map<Status, nat> := map s | s in STATUSES :: 0;
      EveryStatus();
      for i := 0 to |all|
        invariant Histogram(counts, all[..i])
      {
        CountSnoc(all[..i], all[i]);
        assert all[..i + 1] == all[..i] + [all[i]];
        counts := counts[all[i].status := counts[all[i].status] + 1];
      }
      assert all[..|all|] == all;
      var scope := counts[Selected] + counts[Blocked] + counts[Skipped] + counts[ExecutedPass]
                   + counts[ExecutedFail] + counts[Aborted] + counts[NeedsHuman];
      var executed := counts[ExecutedPass] + counts[ExecutedFail];
      var total := if designed.Some? then designed.value else |all|;
      var scopeConserved := total == scope + counts[NotSelected] + counts[NotApplicable] + counts[Planned];
      var executionConserved := scope == counts[Selected] + counts[Blocked] + counts[Skipped] + executed
                                         + counts[Aborted] + counts[NeedsHuman];
      StatusesPartition(all);
      summary := Summary(total, scope, executed, counts, scopeConserved, executionConserved,
                         scopeConserved && executionConserved);
    }

    /**
     Succeeds exactly when the run exists and the designed total, if given, is the number of cases
     with a recorded result; the run then failed exactly when some case was last recorded as failed
     or blocked.
     */
    method Complete(run: Id, designed: Option<int>) returns (completion: Completion)
      requires Valid()
      modifies this
      ensures Valid() && log == old(log)
      ensures completion.Completed? <==> run in old(runs) && Accounted(old(log), run, designed)
      ensures completion.GateFailed? <==> !Accounted(old(log), run, designed)
      ensures completion.Completed? ==>
              && completion.verdict == (if CasesLast(old(log), run, ExecutedFail) == {}
                  && CasesLast(old(log), run, Blocked) == {}
                                        then RunPass else RunFail)
              && runs == old(runs)[run := completion.verdict]
      ensures !completion.Completed? ==> runs == old(runs)
    {
      var summary := Summarize(run, designed);
      GateIffAllAccounted(log, run, designed);
      CountsAreHistogram(log, run, ExecutedFail);
      CountsAreHistogram(log, run, Blocked);
      if !summary.ok {
        return GateFailed;
      }
      if run !in runs {
        return RunNotFound;
      }
      var verdict := if summary.counts[ExecutedFail] == 0 && summary.counts[Blocked] == 0 then RunPass else RunFail;
      runs := runs[run := verdict];
      completion := Completed(verdict);
    }
  }

  /** Every row falls into exactly one class, so the classes add up to the rows. */
  lemma {:induction false} StatusesPartition(rows: seq<Row>)
    ensures CurrentScope(rows) + Count(rows, NotSelected) + Count(rows, NotApplicable) + Count(rows, Planned) == |rows|
  {
    if rows != [] {
      StatusesPartition(rows[..|rows| - 1]);
    }
  }

  // --------------------------------------------------- the rows as a history of calls

  /** The rows of a run after a sequence of calls. */
  function Recorded(log: seq<Entry>, run: Id): (rows: seq<Row>) {
    if log == [] then []
    else
      var last, before := log[|log| - 1], Recorded(log[..|log| - 1], run);
      if last.run == run then Upsert(before, last.caseId, last.status) else before
  }

  /** The status written last for the case, if any was. */
  function LastStatus(log: seq<Entry>, run: Id, caseId: Id): (r: Option<Status>) {
    if log == [] then None
    else if log[|log| - 1].run == run && log[|log| - 1].caseId == caseId then Some(log[|log| - 1].status)
    else LastStatus(log[..|log| - 1], run, caseId)
  }

  ghost predicate OneRowPerCase(rows: seq<Row>) {
    forall i, j :: 0 <= i < j < |rows| ==> rows[i].caseId != rows[j].caseId
  }

  lemma {:induction false} UpsertRows(rows: seq<Row>, caseId: Id, status: Status)
    requires OneRowPerCase(rows)
    ensures OneRowPerCase(Upsert(rows, caseId, status))
    ensures forall r :: r in Upsert(rows, caseId, status) <==>
        r == Row(caseId, status) || (r in rows && r.caseId != caseId)
  {
    if rows != [] {
      var tail := rows[1..];
      assert rows == [rows[0]] + tail;
      if rows[0].caseId != caseId {
        UpsertRows(tail, caseId, status);
        HeadDistinct(rows[0], Upsert(tail, caseId, status));
      }
    }
  }

  lemma {:induction false} HeadDistinct(head: Row, tail: seq<Row>)
    requires OneRowPerCase(tail) && forall r | r in tail :: r.caseId != head.caseId
    ensures OneRowPerCase([head] + tail)
  {
  }

  /** The ledger holds one row per case, with the status written last. */
  lemma {:induction false} RowsAreLastStatuses(log: seq<Entry>, run: Id)
    ensures OneRowPerCase(Recorded(log, run))
    ensures forall r :: r in Recorded(log, run) <==> LastStatus(log, run, r.caseId) == Some(r.status)
  {
    if log != [] {
      var front, last := log[..|log| - 1], log[|log| - 1];
      RowsAreLastStatuses(front, run);
      if last.run == run {
        UpsertRows(Recorded(front, run), last.caseId, last.status);
        forall r ensures r in Recorded(log, run) <==> LastStatus(log, run, r.caseId) == Some(r.status) {
          assert r.caseId == last.caseId || LastStatus(log, run, r.caseId) == LastStatus(front, run, r.caseId);
        }
      }
    }
  }

  function CasesWith(rows: seq<Row>, status: Status): (cases: set<Id>) {
    set r | r in rows && r.status == status :: r.caseId
  }

  lemma {:induction false} CasesSnoc(rows: seq<Row>, row: Row, status: Status)
    ensures CasesWith(rows + [row], status) == CasesWith(rows, status) + if row.status == status then {row.caseId}
        else {}
  {
  }

  lemma {:induction false} CountIsCases(rows: seq<Row>, status: Status)
    requires OneRowPerCase(rows)
    ensures Count(rows, status) == |CasesWith(rows, status)|
  {
    if rows == [] {
      assert CasesWith(rows, status) == {};
    } else {
      var front, last := rows[..|rows| - 1], rows[|rows| - 1];
      CountIsCases(front, status);
      assert rows == front + [last];
      CasesSnoc(front, last, status);
      assert last.caseId !in CasesWith(front, status);
    }
  }

  function Touched(log: seq<Entry>, run: Id): (cases: set<Id>) {
    set e | e in log && e.run == run :: e.caseId
  }

  lemma {:induction false} TouchedHasStatus(log: seq<Entry>, run: Id, caseId: Id)
    ensures caseId in Touched(log, run) <==> LastStatus(log, run, caseId).Some?
  {
    if log != [] {
      TouchedHasStatus(log[..|log| - 1], run, caseId);
      assert log == log[..|log| - 1] + [log[|log| - 1]];
    }
  }

  /** The cases whose last status this is. */
  function CasesLast(log: seq<Entry>, run: Id, status: Status): (cases: set<Id>) {
    set c | c in Touched(log, run) && LastStatus(log, run, c) == Some(status)
  }

  lemma {:induction false} CasesAgree(log: seq<Entry>, run: Id, status: Status)
    ensures CasesWith(Recorded(log, run), status) == CasesLast(log, run, status)
  {
    var rows := Recorded(log, run);
    RowsAreLastStatuses(log, run);
    forall c ensures c in CasesWith(rows, status) <==> c in CasesLast(log, run, status) {
      TouchedHasStatus(log, run, c);
      assert LastStatus(log, run, c) == Some(status) <==> Row(c, status) in rows;
    }
  }

  lemma {:induction false} TouchedAgree(log: seq<Entry>, run: Id)
    ensures Cases(Recorded(log, run)) == Touched(log, run)
  {
    var rows := Recorded(log, run);
    RowsAreLastStatuses(log, run);
    forall c ensures c in Cases(rows) <==> c in Touched(log, run) {
      TouchedHasStatus(log, run, c);
      if c in Touched(log, run) {
        assert Row(c, LastStatus(log, run, c).value) in rows;
      }
    }
  }

  /**
   Conservation: after any sequence of calls the count of a status is the number of cases whose
   last status it is, and the number of rows is the number of distinct cases recorded.
   */
  lemma {:induction false} CountsAreHistogram(log: seq<Entry>, run: Id, status: Status)
    ensures Count(Recorded(log, run), status) == |CasesLast(log, run, status)|
    ensures |Recorded(log, run)| == |Touched(log, run)|
  {
    RowsAreLastStatuses(log, run);
    CountIsCases(Recorded(log, run), status);
    CasesAgree(log, run, status);
    RowsAreCases(Recorded(log, run));
    TouchedAgree(log, run);
  }

  function Cases(rows: seq<Row>): (cases: set<Id>) {
    set r | r in rows :: r.caseId
  }

  lemma {:induction false} RowsAreCases(rows: seq<Row>)
    requires OneRowPerCase(rows)
    ensures |rows| == |Cases(rows)|
  {
    if rows == [] {
      assert Cases(rows) == {};
    } else {
      var front, last := rows[..|rows| - 1], rows[|rows| - 1];
      RowsAreCases(front);
      assert rows == front + [last];
      assert Cases(rows) == Cases(front) + {last.caseId};
      assert last.caseId !in Cases(front);
    }
  }

  /** No total was designed, or it is the number of cases with a recorded result. */
  predicate Accounted(log: seq<Entry>, run: Id, designed: Option<int>) {
    designed.None? || designed.value == |Touched(log, run)|
  }

  lemma {:induction false} GateIffAllAccounted(log: seq<Entry>, run: Id, designed: Option<int>)
    ensures Expected(Recorded(log, run), designed) == |Recorded(log, run)| <==> Accounted(log, run, designed)
  {
    CountsAreHistogram(log, run, Planned);
  }
}

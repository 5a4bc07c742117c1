/** Alternating execute and evaluate walks a plan to its end in exactly two calls per step. */
module MissionProgress {
  import opened Prelude
  import opened Json
  import opened ContractMatch
  import opened Mission
  import opened MissionInvariants

  // -------------------------------------------------------------- counting the steps

  /** How many rows of the version have at least this ordinal. */
  function CountFrom(rows: seq<Row>, version: nat, ordinal: nat): (n: nat) {
    if rows == [] then 0
    else
      var last := rows[|rows| - 1];
      CountFrom(rows[..|rows| - 1], version, ordinal) + if last.version == version && last.ordinal >= ordinal then 1
        else 0
  }

  function Remaining(db: Db): (n: nat) {
    if CurrentStep(db).None? then 0 else CountFrom(db.rows, db.version, CurrentStep(db).value.ordinal)
  }

  /** The calls a mission that goes well still needs. */
  function CallsLeft(db: Db): (n: int) {
    if db.state.Executing? then 2 * Remaining(db)
    else if db.state.Verifying? then 2 * Remaining(db) - 1
    else 0
  }

  lemma {:induction false} CountPositive(rows: seq<Row>, version: nat, ordinal: nat, k: nat)
    requires k < |rows| && rows[k].version == version && rows[k].ordinal >= ordinal
    ensures CountFrom(rows, version, ordinal) > 0
  {
    if k < |rows| - 1 {
      CountPositive(rows[..|rows| - 1], version, ordinal, k);
    }
  }

  lemma {:induction false} CountSameKeys(a: seq<Row>, b: seq<Row>, version: nat, ordinal: nat)
    requires SameKeys(a, b)
    ensures CountFrom(a, version, ordinal) == CountFrom(b, version, ordinal)
  {
    if a != [] {
      CountSameKeys(a[..|a| - 1], b[..|b| - 1], version, ordinal);
    }
  }

  lemma {:induction false} CountAgrees(rows: seq<Row>, version: nat, low: nat, high: nat)
    requires forall i :: 0 <= i < |rows| && rows[i].version == version ==>
        (rows[i].ordinal >= low <==> rows[i].ordinal >= high)
    ensures CountFrom(rows, version, low) == CountFrom(rows, version, high)
  {
    if rows != [] {
      CountAgrees(rows[..|rows| - 1], version, low, high);
    }
  }

  /** Exactly one row lies between two neighbouring ordinals. */
  lemma {:induction false} CountStep(rows: seq<Row>, version: nat, low: nat, high: nat, k: nat)
    requires k < |rows| && rows[k].version == version && rows[k].ordinal == low < high
    requires forall i, j :: 0 <= i < j < |rows| && rows[i].version == rows[j].version ==>
        rows[i].ordinal != rows[j].ordinal
    requires forall i :: 0 <= i < |rows| && rows[i].version == version && rows[i].ordinal > low ==>
        rows[i].ordinal >= high
    ensures CountFrom(rows, version, low) == CountFrom(rows, version, high) + 1
  {
    var front := rows[..|rows| - 1];
    if k < |rows| - 1 {
      CountStep(front, version, low, high, k);
    } else {
      CountAgrees(front, version, low, high);
    }
  }

  lemma {:induction false} CountNone(rows: seq<Row>, version: nat, ordinal: nat)
    requires forall i :: 0 <= i < |rows| && rows[i].version == version ==> rows[i].ordinal < ordinal
    ensures CountFrom(rows, version, ordinal) == 0
  {
    if rows != [] {
      CountNone(rows[..|rows| - 1], version, ordinal);
    }
  }

  // ------------------------------------------------------------------ a good setting

  /** An invocation of this step by an executor passes every check. */
  predicate Permitted(db: Db, w: World, def: StepDef) {
    && def.capability.Some? && def.capability.value in w.registry
    && Executor in w.registry[def.capability.value].roles
    && (w.registry[def.capability.value].gate.Some? ==> GateApproved(db, w.registry[def.capability.value].gate.value))
  }

  predicate Ahead(db: Db, row: Row) {
    CurrentStep(db).Some? && row.version == db.version && row.ordinal >= CurrentStep(db).value.ordinal
  }

  /**
   The baseline has not moved and every step still to come is permitted; `outputs` gives what
   its capability will return, and that satisfies its frozen contract.
   */
  ghost predicate GoesWell(db: Db, w: World, outputs: map<Id, Value>) {
    && !BaselineChanged(db, w)
    && (forall i :: 0 <= i < |db.rows| && Ahead(db, db.rows[i]) ==>
          && Permitted(db, w, db.rows[i].def)
          && db.rows[i].id in outputs
          && Match(db.rows[i].def.expected, InvocationResult(db.rows[i].def.capability.value, outputs[db.rows[i].id])))
    && (db.state.Verifying? ==>
          CurrentStep(db).Some? && Match(CurrentStep(db).value.def.expected, OutputOf(CurrentStep(db).value)))
  }

  /** The next call of the alternation. */
  function NextCall(db: Db, w: World, outputs: map<Id, Value>): (op: Operation) {
    if db.state.Executing? then
      OpExecute(Executor, w, if db.cursor.Some? && db.cursor.value in outputs then Returned(outputs[db.cursor.value])
        else OtherError, "")
    else OpEvaluate(Evaluator, None)
  }

  function AfterCall(db: Db, w: World, outputs: map<Id, Value>): (r: Db) {
    Replay(db, PlanOf(db, NextCall(db, w, outputs)).writes)
  }

  function Iterate<S>(step: S -> S, s: S, n: nat): (r: S)
    decreases n
  {
    if n == 0 then s else Iterate(step, step(s), n - 1)
  }

  /** The mission after that many calls of the alternation. */
  function Drive(db: Db, w: World, outputs: map<Id, Value>, calls: nat): (r: Db) {
    Iterate(x => AfterCall(x, w, outputs), db, calls)
  }

  /** Steps that keep a property and lower a measure by one lower it by n in n steps. */
  lemma {:induction false} IterateCountsDown<S(!new)>(step: S -> S, good: S -> bool, measure: S -> int, s: S, n: nat)
    requires forall x :: good(x) && measure(x) > 0 ==> good(step(x)) && measure(step(x)) == measure(x) - 1
    requires good(s) && n <= measure(s)
    ensures good(Iterate(step, s, n)) && measure(Iterate(step, s, n)) == measure(s) - n
    decreases n
  {
    if n > 0 {
      IterateCountsDown(step, good, measure, step(s), n - 1);
    }
  }

  // ----------------------------------------------------------------------- one call

  lemma {:induction false} ReplayThree(db: Db, a: Write, b: Write, c: Write)
    ensures Replay(db, [a, b, c]) == Apply(Apply(Apply(db, a), b), c)
  {
    ReplayAppend(db, [a, b], [c]);
    ReplayOne(Apply(Apply(db, a), b), c);
    ReplayAppend(db, [a], [b]);
    ReplayOne(db, a);
    ReplayOne(Apply(db, a), b);
    assert [a] + [b] == [a, b];
    assert [a, b] + [c] == [a, b, c];
  }

  /** What an execution that goes well leaves: the cursor's row carries the output. */
  function ExecutedState(db: Db, row: Row, value: Value): (r: Db)
    requires row.def.capability.Some?
  {
    var capability := row.def.capability.value;
    Apply(Apply(Apply(db, StepSet(row.id, Running)),
      AuditAppended(AuditRow(Some(row.id), Executor, capability, Allowed))),
          StepOutput(row.id, InvocationResult(capability, value)))
  }

  lemma {:induction false} RunningStep(db: Db, row: Row)
    requires CurrentStep(db) == Some(row)
    ensures CurrentStep(Apply(db, StepSet(row.id, Running))) == Some(row.(status := Running))
  {
    var r := Apply(db, StepSet(row.id, Running));
    var k := FindRowFramed(db.rows, r.rows, row.id);
  }

  /** What a call on a running step writes when the capability returns. */
  lemma {:induction false} RunWrites(db: Db, w: World, row: Row, capability: Id, value: Value)
    requires row.def.capability == Some(capability)
    requires !Refusal(db, w, Executor, capability, Some(row.id))
    ensures RunStepPlan(db, w, row, Returned(value), "").writes ==
            [AuditAppended(AuditRow(Some(row.id), Executor, capability, Allowed))] +
            [StepOutput(row.id, InvocationResult(capability, value))]
  {
  }

  lemma {:induction false} ExecuteWrites(db: Db, w: World, outputs: map<Id, Value>, row: Row, value: Value)
    requires db.state.Executing? && !BaselineChanged(db, w) && CurrentStep(db) == Some(row)
    requires row.id in outputs && outputs[row.id] == value
    ensures PlanOf(db, NextCall(db, w, outputs)).writes ==
            [StepSet(row.id, Running)] +
            RunStepPlan(Apply(db, StepSet(row.id, Running)), w, row, Returned(value), "").writes
  {
  }

  lemma {:induction false} ExecuteGoesWell(db: Db, w: World, outputs: map<Id, Value>)
    requires Consistent(db) && db.state.Executing? && db.cursor.Some? && GoesWell(db, w, outputs)
    ensures CurrentStep(db).Some? && CurrentStep(db).value.def.capability.Some? && db.cursor.value in outputs
    ensures var row := CurrentStep(db).value;
      AfterCall(db, w, outputs) == ExecutedState(db, row, outputs[row.id])
  {
    var row := CurrentStep(db).value;
    NotRefused(db, w, outputs, row);
    var capability, value := row.def.capability.value, outputs[row.id];
    var start := StepSet(row.id, Running);
    var audit := AuditAppended(AuditRow(Some(row.id), Executor, capability, Allowed));
    var output := StepOutput(row.id, InvocationResult(capability, value));
    RunWrites(Apply(db, start), w, row, capability, value);
    ExecuteWrites(db, w, outputs, row, value);
    assert [start] + ([audit] + [output]) == [start, audit, output];
    ReplayThree(db, start, audit, output);
  }

  lemma {:induction false} NotRefused(db: Db, w: World, outputs: map<Id, Value>, row: Row)
    requires Consistent(db) && db.state.Executing? && CurrentStep(db) == Some(row) && GoesWell(db, w, outputs)
    ensures !BaselineChanged(db, w) && row.def.capability.Some? && row.id in outputs
    ensures !Refusal(Apply(db, StepSet(row.id, Running)), w, Executor, row.def.capability.value, Some(row.id))
  {
    var k :| 0 <= k < |db.rows| && db.rows[k] == row;
    assert Ahead(db, db.rows[k]);
    RunningStep(db, row);
  }

  lemma {:induction false} ExecutedStateIs(db: Db, row: Row, value: Value)
    requires Consistent(db) && CurrentStep(db) == Some(row) && row.def.capability.Some?
    ensures var r := ExecutedState(db, row, value);
      && SameKeys(db.rows, r.rows) && r.state.Verifying? && r.version == db.version && r.cursor == db.cursor
      && CurrentStep(r).Some?
      && CurrentStep(r).value == row.(status := Executed,
      output := Some(InvocationResult(row.def.capability.value, value)))
      && r == db.(state := Verifying, rows := r.rows, audit := r.audit)
  {
    var r := ExecutedState(db, row, value);
    ExecutedRows(db, row, value);
    var k := FindRowFramed(db.rows, r.rows, row.id);
  }

  /** Only the row of the step changes, and only its status and output. */
  lemma {:induction false} ExecutedRows(db: Db, row: Row, value: Value)
    requires row.def.capability.Some?
    ensures var r := ExecutedState(db, row, value);
      && SameKeys(db.rows, r.rows)
      && r == db.(state := Verifying, rows := r.rows, audit := r.audit)
      && forall i :: 0 <= i < |db.rows| && db.rows[i].id == row.id ==>
           r.rows[i] == db.rows[i].(status := Executed,
             output := Some(InvocationResult(row.def.capability.value, value)))
  {
  }

  lemma {:induction false} ExecuteStep(db: Db, w: World, outputs: map<Id, Value>)
    requires Consistent(db) && db.state.Executing? && db.cursor.Some? && GoesWell(db, w, outputs)
    ensures var r := AfterCall(db, w, outputs);
      r.state.Verifying? && r.cursor == db.cursor && GoesWell(r, w, outputs) && CallsLeft(r) == CallsLeft(db) - 1
  {
    var row := CurrentStep(db).value;
    ExecuteGoesWell(db, w, outputs);
    WellAfterExecution(db, w, outputs, row);
  }

  lemma {:induction false} WellAfterExecution(db: Db, w: World, outputs: map<Id, Value>, row: Row)
    requires Consistent(db) && db.state.Executing? && CurrentStep(db) == Some(row) && GoesWell(db, w, outputs)
    requires row.def.capability.Some? && row.id in outputs
    ensures var r := ExecutedState(db, row, outputs[row.id]);
      r.state.Verifying? && r.cursor == db.cursor && GoesWell(r, w, outputs) && CallsLeft(r) == CallsLeft(db) - 1
  {
    ExecutedStateIs(db, row, outputs[row.id]);
    var r := ExecutedState(db, row, outputs[row.id]);
    var k :| 0 <= k < |db.rows| && db.rows[k] == row;
    assert Ahead(db, db.rows[k]);
    CountSameKeys(db.rows, r.rows, db.version, row.ordinal);
    forall i | 0 <= i < |r.rows| && Ahead(r, r.rows[i])
      ensures Permitted(r, w, r.rows[i].def) && r.rows[i].id in outputs
      ensures Match(r.rows[i].def.expected, InvocationResult(r.rows[i].def.capability.value, outputs[r.rows[i].id]))
    {
      assert Ahead(db, db.rows[i]);
    }
  }

  /** What a passing evaluation writes. */
  lemma {:induction false} EvaluateWrites(db: Db, row: Row, following: Option<Row>)
    requires db.state.Verifying? && CurrentStep(db) == Some(row)
    requires following == NextRow(db.rows, row.version, row.ordinal)
    requires Match(row.def.expected, OutputOf(row))
    ensures EvaluateCurrentStep(db, Evaluator, None).writes ==
            [StepJudged(row.id, VerdictPass, if following.Some? then Some(following.value.id) else None)]
  {
  }

  lemma {:induction false} CallIsEvaluate(db: Db, w: World, outputs: map<Id, Value>)
    requires db.state.Verifying?
    ensures AfterCall(db, w, outputs) == Replay(db, EvaluateCurrentStep(db, Evaluator, None).writes)
  {
  }

  lemma {:induction false} EvaluateGoesWell(db: Db, w: World, outputs: map<Id, Value>)
    requires db.state.Verifying? && CurrentStep(db).Some?
    requires Match(CurrentStep(db).value.def.expected, OutputOf(CurrentStep(db).value))
    ensures var row := CurrentStep(db).value;
      var following := NextRow(db.rows, row.version, row.ordinal);
      AfterCall(db, w, outputs) ==
      Apply(db, StepJudged(row.id, VerdictPass, if following.Some? then Some(following.value.id) else None))
  {
    var row := CurrentStep(db).value;
    var following := NextRow(db.rows, row.version, row.ordinal);
    CallIsEvaluate(db, w, outputs);
    EvaluateWrites(db, row, following);
    ReplayOne(db, StepJudged(row.id, VerdictPass, if following.Some? then Some(following.value.id) else None));
  }

  lemma {:induction false} CountFollowing(db: Db, row: Row, following: Option<Row>)
    requires RowsKeyed(db) && row in db.rows && row.version == db.version
    requires following == NextRow(db.rows, row.version, row.ordinal)
    ensures CountFrom(db.rows, db.version, row.ordinal) ==
            1 + if following.Some? then CountFrom(db.rows, db.version, following.value.ordinal) else 0
  {
    var k :| 0 <= k < |db.rows| && db.rows[k] == row;
    if following.Some? {
      CountStep(db.rows, db.version, row.ordinal, following.value.ordinal, k);
    } else {
      CountStep(db.rows, db.version, row.ordinal, row.ordinal + 1, k);
      CountNone(db.rows, db.version, row.ordinal + 1);
    }
  }

  /** After a passing evaluation the cursor is on the following row, or gone. */
  lemma {:induction false} EvaluateMoves(db: Db, row: Row, following: Option<Row>, next: Option<Id>, r: Db)
    requires RowsKeyed(db) && row in db.rows && row.version == db.version
    requires following == NextRow(db.rows, row.version, row.ordinal)
    requires next == if following.Some? then Some(following.value.id) else None
    requires r == Apply(db, StepJudged(row.id, VerdictPass, next))
    ensures CurrentStep(r) == following && SameKeys(db.rows, r.rows)
    ensures CountFrom(db.rows, db.version, row.ordinal) ==
            1 + if following.Some? then CountFrom(r.rows, db.version, following.value.ordinal) else 0
  {
    PassedRows(db, row.id, next);
    PassingMoves(db, row, following, r);
    CountFollowing(db, row, following);
    if following.Some? {
      CountSameKeys(db.rows, r.rows, db.version, following.value.ordinal);
    }
  }

  lemma {:induction false} PassedRows(db: Db, id: Id, next: Option<Id>)
    ensures SameKeys(db.rows, Apply(db, StepJudged(id, VerdictPass, next)).rows)
  {
  }

  lemma {:induction false} EvaluateStep(db: Db, w: World, outputs: map<Id, Value>)
    requires Consistent(db) && db.state.Verifying? && db.cursor.Some? && GoesWell(db, w, outputs)
    ensures var r := AfterCall(db, w, outputs);
      && GoesWell(r, w, outputs) && CallsLeft(r) == CallsLeft(db) - 1
      && (if r.cursor.Some? then r.state.Executing? else r.state.WaitingH4?)
  {
    var row := CurrentStep(db).value;
    var following := NextRow(db.rows, row.version, row.ordinal);
    var next := if following.Some? then Some(following.value.id) else None;
    EvaluateGoesWell(db, w, outputs);
    var r := Apply(db, StepJudged(row.id, VerdictPass, next));
    EvaluateMoves(db, row, following, next, r);
    WellAfterPassing(db, w, outputs, row, next, r);
    PassingCountsDown(db, row, following, next, r);
  }

  lemma {:induction false} PassingCountsDown(db: Db, row: Row, following: Option<Row>, next: Option<Id>, r: Db)
    requires db.state.Verifying? && CurrentStep(db) == Some(row) && CurrentStep(r) == following
    requires next == if following.Some? then Some(following.value.id) else None
    requires r == Apply(db, StepJudged(row.id, VerdictPass, next))
    requires CountFrom(db.rows, db.version, row.ordinal) ==
             1 + if following.Some? then CountFrom(r.rows, db.version, following.value.ordinal) else 0
    ensures CallsLeft(r) == CallsLeft(db) - 1
    ensures if r.cursor.Some? then r.state.Executing? else r.state.WaitingH4?
  {
  }

  /** The steps still ahead were ahead before. */
  lemma {:induction false} WellAfterPassing(db: Db, w: World, outputs: map<Id, Value>, row: Row, next: Option<Id>,
      r: Db)
    requires db.state.Verifying? && CurrentStep(db) == Some(row) && GoesWell(db, w, outputs)
    requires r == Apply(db, StepJudged(row.id, VerdictPass, next)) && SameKeys(db.rows, r.rows)
    requires CurrentStep(r) == NextRow(db.rows, row.version, row.ordinal)
    ensures GoesWell(r, w, outputs)
  {
    forall i | 0 <= i < |r.rows| && Ahead(r, r.rows[i])
      ensures Permitted(r, w, r.rows[i].def) && r.rows[i].id in outputs
      ensures Match(r.rows[i].def.expected, InvocationResult(r.rows[i].def.capability.value, outputs[r.rows[i].id]))
    {
      assert Ahead(db, db.rows[i]);
    }
  }

  // ---------------------------------------------------------------------- whole walks

  /** A walk that goes well: the mission executes or verifies until the cursor is gone. */
  ghost predicate OnTrack(db: Db, w: World, outputs: map<Id, Value>) {
    && Consistent(db) && GoesWell(db, w, outputs)
    && (if db.cursor.Some? then db.state.Executing? || db.state.Verifying? else db.state.WaitingH4?)
  }

  lemma {:induction false} OneCall(db: Db, w: World, outputs: map<Id, Value>)
    requires OnTrack(db, w, outputs) && db.cursor.Some?
    ensures var r := AfterCall(db, w, outputs);
      OnTrack(r, w, outputs) && CallsLeft(r) == CallsLeft(db) - 1
  {
    var op := NextCall(db, w, outputs);
    PlanLegal(db, op);
    WritesKeepConsistent(db, PlanOf(db, op).writes);
    if db.state.Executing? {
      ExecuteStep(db, w, outputs);
    } else {
      EvaluateStep(db, w, outputs);
    }
  }

  /** Every call makes progress. */
  lemma {:induction false} EveryCallCounts(db: Db, w: World, outputs: map<Id, Value>, calls: nat)
    requires OnTrack(db, w, outputs) && calls <= CallsLeft(db)
    ensures OnTrack(Drive(db, w, outputs, calls), w, outputs)
    ensures CallsLeft(Drive(db, w, outputs, calls)) == CallsLeft(db) - calls
  {
    forall x | OnTrack(x, w, outputs) && CallsLeft(x) > 0
      ensures OnTrack(AfterCall(x, w, outputs), w, outputs) && CallsLeft(AfterCall(x, w, outputs)) == CallsLeft(x) - 1
    {
      OneCall(x, w, outputs);
    }
    IterateCountsDown(x => AfterCall(x, w, outputs), x => OnTrack(x, w, outputs), CallsLeft, db, calls);
  }

  lemma {:induction false} CallsLeftPositive(db: Db)
    requires Consistent(db) && db.cursor.Some? && (db.state.Executing? || db.state.Verifying?)
    ensures CallsLeft(db) > 0
  {
    var row := CurrentStep(db).value;
    var k :| 0 <= k < |db.rows| && db.rows[k] == row;
    CountPositive(db.rows, db.version, row.ordinal, k);
  }

  /**
   With n steps left, the n-th evaluation and no earlier call brings the mission to WAITING_H4:
   exactly 2n calls, for every n, and every call before brings it one call closer.
   */
  lemma {:induction false} ReachesH4(db: Db, w: World, outputs: map<Id, Value>, calls: nat)
    requires Consistent(db) && db.state.Executing? && db.cursor.Some? && GoesWell(db, w, outputs)
    requires calls <= 2 * Remaining(db)
    ensures Remaining(db) >= 1
    ensures Drive(db, w, outputs, calls).state.WaitingH4? <==> calls == 2 * Remaining(db)
    ensures CallsLeft(Drive(db, w, outputs, calls)) == 2 * Remaining(db) - calls
  {
    CallsLeftPositive(db);
    EveryCallCounts(db, w, outputs, calls);
    var r := Drive(db, w, outputs, calls);
    if r.cursor.Some? {
      CallsLeftPositive(r);
    }
  }
}

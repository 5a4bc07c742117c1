/** What every commit of every operation keeps, and what runs without hand-made transitions keep. */
module MissionInvariants {
  import opened Prelude
  import opened Json
  import opened Mission

  // ------------------------------------------------------------------ the invariant

  ghost predicate RowsKeyed(db: Db) {
    && (forall i, j :: 0 <= i < j < |db.rows| ==> db.rows[i].id != db.rows[j].id)
    && (forall i, j :: 0 <= i < j < |db.rows| && db.rows[i].version == db.rows[j].version ==>
          db.rows[i].ordinal != db.rows[j].ordinal)
    && (forall i :: 0 <= i < |db.rows| ==> db.rows[i].version <= db.version)
  }

  ghost predicate CursorValid(db: Db) {
    db.cursor.Some? ==> CurrentStep(db).Some? && CurrentStep(db).value.version == db.version
  }

  /** Steps before the cursor are PASS, steps after it untouched; without a cursor all are PASS. */
  predicate PlacedAround(row: Row, cursor: Option<Row>) {
    match cursor
    case None => row.status.Pass?
    case Some(c) =>
      && (row.ordinal < c.ordinal ==> row.status.Pass?)
      && (row.ordinal > c.ordinal ==> row.status.Pending? && row.output.None?)
      && (row.ordinal == c.ordinal ==> !row.status.Pass?)
  }

  ghost predicate PrefixPassed(db: Db) {
    forall i :: 0 <= i < |db.rows| && db.rows[i].version == db.version ==> PlacedAround(db.rows[i], CurrentStep(db))
  }

  ghost predicate Consistent(db: Db) {
    RowsKeyed(db) && CursorValid(db) && PrefixPassed(db)
  }

  /** The guard under which each kind of commit is made. */
  ghost predicate Legal(db: Db, w: Write) {
    match w
    case PlanFrozen(plan) => IdsFree(db, plan, {})
    case StepSet(step, status) =>
      && !status.Pass?
      && (db.cursor == Some(step) ||
          (FindRow(db.rows, step).Some? && FindRow(db.rows, step).value.status.StepWaiting?))
    case StepOutput(step, _) => db.cursor == Some(step)
    case StepJudged(step, verdict, next) =>
      && CurrentStep(db).Some? && CurrentStep(db).value.id == step
      && var c := CurrentStep(db).value;
         var following := NextRow(db.rows, c.version, c.ordinal);
         next == if following.Some? then Some(following.value.id) else None
    case _ => true
  }

  ghost predicate AllLegal(db: Db, writes: seq<Write>) {
    writes == [] || (AllLegal(db, writes[..|writes| - 1])
      && Legal(Replay(db, writes[..|writes| - 1]), writes[|writes| - 1]))
  }

  // ----------------------------------------------------------------- row lookups

  lemma {:induction false} FindRowIs(rows: seq<Row>, i: nat)
    requires i < |rows|
    requires forall j, k :: 0 <= j < k < |rows| ==> rows[j].id != rows[k].id
    ensures FindRow(rows, rows[i].id) == Some(rows[i])
  {
    if i > 0 {
      FindRowIs(rows[1..], i - 1);
    }
  }

  /** Rows that keep their keys and are otherwise changed one by one. */
  ghost predicate SameKeys(a: seq<Row>, b: seq<Row>) {
    && |a| == |b|
    && forall i :: 0 <= i < |a| ==>
         a[i].id == b[i].id && a[i].version == b[i].version && a[i].ordinal == b[i].ordinal && a[i].def == b[i].def
  }

  lemma {:induction false} FindRowFramed(a: seq<Row>, b: seq<Row>, id: Id) returns (i: int)
    requires SameKeys(a, b)
    ensures FindRow(a, id).Some? <==> FindRow(b, id).Some?
    ensures FindRow(a, id).Some? ==> 0 <= i < |a| && FindRow(a, id) == Some(a[i]) && FindRow(b, id) == Some(b[i])
  {
    if a == [] {
      i := 0;
    } else if a[0].id == id {
      i := 0;
    } else {
      i := FindRowFramed(a[1..], b[1..], id);
      i := i + 1;
    }
  }

  lemma {:induction false} FindRowAppend(a: seq<Row>, b: seq<Row>, id: Id)
    ensures FindRow(a + b, id) == if FindRow(a, id).Some? then FindRow(a, id) else FindRow(b, id)
  {
    if a == [] {
      assert a + b == b;
    } else {
      FindRowAppend(a[1..], b, id);
      assert (a + b)[1..] == a[1..] + b;
    }
  }

  // -------------------------------------------------------------- one write at a time

  lemma {:induction false} FreezingKeepsKeys(db: Db, plan: seq<(Id, StepDef)>)
    requires RowsKeyed(db) && IdsFree(db, plan, {})
    ensures RowsKeyed(Apply(db, PlanFrozen(plan)))
  {
    var r := Apply(db, PlanFrozen(plan));
    forall i, j | 0 <= i < j < |r.rows|
      ensures r.rows[i].id != r.rows[j].id
      ensures r.rows[i].version == r.rows[j].version ==> r.rows[i].ordinal != r.rows[j].ordinal
    {
      if i < |db.rows| <= j {
        assert FindRow(db.rows, plan[j - |db.rows|].0).None?;
      }
    }
  }

  lemma {:induction false} FreezingMoves(db: Db, plan: seq<(Id, StepDef)>, r: Db)
    requires RowsKeyed(db) && IdsFree(db, plan, {}) && plan != [] && r == Apply(db, PlanFrozen(plan))
    ensures CurrentStep(r) == Some(NewRows(db.version + 1, plan)[0])
  {
    var added := NewRows(db.version + 1, plan);
    FindRowAppend(db.rows, added, plan[0].0);
    FindRowIs(added, 0);
  }

  lemma {:induction false} FreezingKeepsPlace(db: Db, plan: seq<(Id, StepDef)>)
    requires RowsKeyed(db) && IdsFree(db, plan, {})
    ensures CursorValid(Apply(db, PlanFrozen(plan))) && PrefixPassed(Apply(db, PlanFrozen(plan)))
  {
    var r := Apply(db, PlanFrozen(plan));
    if plan != [] {
      FreezingMoves(db, plan, r);
    }
    forall i | 0 <= i < |r.rows| && r.rows[i].version == r.version ensures PlacedAround(r.rows[i], CurrentStep(r)) {
      assert i >= |db.rows|;
    }
  }

  lemma {:induction false} OthersNeverWait(db: Db, i: nat)
    requires Consistent(db) && i < |db.rows| && db.rows[i].version == db.version && CurrentStep(db) != Some(db.rows[i])
    ensures db.rows[i].status.Pass? || db.rows[i].status.Pending?
  {
    assert PlacedAround(db.rows[i], CurrentStep(db));
    if CurrentStep(db).Some? {
      var k :| 0 <= k < |db.rows| && db.rows[k] == CurrentStep(db).value;
    }
  }

  /** Only the cursor's row of the current version ever waits for a human. */
  lemma {:induction false} TouchedIsCursor(db: Db, step: Id, status: StepStatus, i: nat)
    requires Consistent(db) && Legal(db, StepSet(step, status))
    requires i < |db.rows| && db.rows[i].id == step && db.rows[i].version == db.version
    ensures db.cursor == Some(step) && CurrentStep(db) == Some(db.rows[i])
  {
    FindRowIs(db.rows, i);
    if CurrentStep(db) != Some(db.rows[i]) {
      OthersNeverWait(db, i);
    }
  }

  lemma {:induction false} RowChangeKeeps(db: Db, r: Db, step: Id)
    requires Consistent(db) && r.version == db.version && r.cursor == db.cursor && SameKeys(db.rows, r.rows)
    requires forall i :: 0 <= i < |db.rows| && db.rows[i].id != step ==> r.rows[i] == db.rows[i]
    requires forall i :: 0 <= i < |db.rows| && db.rows[i].id == step ==>
      !r.rows[i].status.Pass? && (db.rows[i].version == db.version ==> CurrentStep(db) == Some(db.rows[i]))
    ensures Consistent(r)
  {
    if db.cursor.Some? {
      var k := FindRowFramed(db.rows, r.rows, db.cursor.value);
      forall i | 0 <= i < |r.rows| && r.rows[i].version == r.version ensures PlacedAround(r.rows[i], CurrentStep(r)) {
        assert PlacedAround(db.rows[i], CurrentStep(db));
      }
    } else {
      forall i | 0 <= i < |r.rows| && r.rows[i].version == r.version ensures PlacedAround(r.rows[i], CurrentStep(r)) {
        assert PlacedAround(db.rows[i], CurrentStep(db));
      }
    }
  }

  lemma {:induction false} SettingKeeps(db: Db, step: Id, status: StepStatus)
    requires Consistent(db) && Legal(db, StepSet(step, status))
    ensures Consistent(Apply(db, StepSet(step, status)))
  {
    forall i | 0 <= i < |db.rows| && db.rows[i].id == step && db.rows[i].version == db.version
      ensures CurrentStep(db) == Some(db.rows[i])
    {
      TouchedIsCursor(db, step, status, i);
    }
    RowChangeKeeps(db, Apply(db, StepSet(step, status)), step);
  }

  lemma {:induction false} OutputKeeps(db: Db, step: Id, output: Value)
    requires Consistent(db) && db.cursor == Some(step)
    ensures Consistent(Apply(db, StepOutput(step, output)))
  {
    forall i | 0 <= i < |db.rows| && db.rows[i].id == step ensures CurrentStep(db) == Some(db.rows[i]) {
      FindRowIs(db.rows, i);
    }
    RowChangeKeeps(db, Apply(db, StepOutput(step, output)), step);
  }

  lemma {:induction false} FailingKeeps(db: Db, step: Id, verdict: Verdict, next: Option<Id>)
    requires Consistent(db) && db.cursor == Some(step) && !verdict.VerdictPass?
    ensures Consistent(Apply(db, StepJudged(step, verdict, next)))
  {
    forall i | 0 <= i < |db.rows| && db.rows[i].id == step ensures CurrentStep(db) == Some(db.rows[i]) {
      FindRowIs(db.rows, i);
    }
    RowChangeKeeps(db, Apply(db, StepJudged(step, verdict, next)), step);
  }

  /** Where the rows stand once the cursor's row has passed and the cursor moved to the following row. */
  lemma {:induction false} PassingPlaces(db: Db, c: Row, next: Option<Row>, i: nat)
    requires RowsKeyed(db) && CurrentStep(db) == Some(c) && c.version == db.version && c in db.rows
    requires i < |db.rows| && db.rows[i].version == db.version && PlacedAround(db.rows[i], Some(c))
    requires next == NextRow(db.rows, c.version, c.ordinal)
    ensures var row := if db.rows[i].id == c.id then db.rows[i].(status := Pass) else db.rows[i];
      PlacedAround(row, next)
  {
    var k :| 0 <= k < |db.rows| && db.rows[k] == c;
    if next.Some? {
      var n :| 0 <= n < |db.rows| && db.rows[n] == next.value;
    }
  }

  lemma {:induction false} PassingKeepsPrefix(db: Db, c: Row, following: Option<Row>, r: Db)
    requires Consistent(db) && CurrentStep(db) == Some(c) && c in db.rows && c.version == db.version
    requires following == NextRow(db.rows, c.version, c.ordinal) && CurrentStep(r) == following
    requires r.rows == SetStatus(db.rows, c.id, Pass) && r.version == db.version
    ensures PrefixPassed(r)
  {
    forall i | 0 <= i < |r.rows| && r.rows[i].version == r.version ensures PlacedAround(r.rows[i], CurrentStep(r)) {
      assert PlacedAround(db.rows[i], CurrentStep(db));
      PassingPlaces(db, c, following, i);
    }
  }

  lemma {:induction false} SameKeysKeyed(db: Db, r: Db)
    requires RowsKeyed(db) && SameKeys(db.rows, r.rows) && r.version == db.version
    ensures RowsKeyed(r)
  {
  }

  lemma {:induction false} PassingKeeps(db: Db, step: Id, next: Option<Id>)
    requires Consistent(db) && Legal(db, StepJudged(step, VerdictPass, next))
    ensures Consistent(Apply(db, StepJudged(step, VerdictPass, next)))
  {
    var r := Apply(db, StepJudged(step, VerdictPass, next));
    var c := CurrentStep(db).value;
    var following := NextRow(db.rows, c.version, c.ordinal);
    SameKeysKeyed(db, r);
    PassingMoves(db, c, following, r);
    PassingKeepsPrefix(db, c, following, r);
  }

  lemma {:induction false} PassingMoves(db: Db, c: Row, following: Option<Row>, r: Db)
    requires RowsKeyed(db) && c in db.rows && c.version == db.version
    requires following == NextRow(db.rows, c.version, c.ordinal)
    requires r.rows == SetStatus(db.rows, c.id, Pass) && r.version == db.version
    requires r.cursor == if following.Some? then Some(following.value.id) else None
    ensures CurrentStep(r) == following && CursorValid(r)
  {
    if following.Some? {
      var n :| 0 <= n < |db.rows| && db.rows[n] == following.value;
      DifferentRows(db, n, c);
      FoundAfter(db.rows, r.rows, n);
    }
  }

  lemma {:induction false} DifferentRows(db: Db, n: nat, c: Row)
    requires RowsKeyed(db) && n < |db.rows| && c in db.rows && db.rows[n].ordinal != c.ordinal
    ensures db.rows[n].id != c.id
  {
    var k :| 0 <= k < |db.rows| && db.rows[k] == c;
  }

  lemma {:induction false} FoundAfter(a: seq<Row>, b: seq<Row>, n: nat)
    requires SameKeys(a, b) && n < |a| && forall i, j :: 0 <= i < j < |a| ==> a[i].id != a[j].id
    ensures FindRow(b, a[n].id) == Some(b[n])
  {
    FindRowIs(b, n);
  }

  lemma {:induction false} ElsewhereKeeps(db: Db, w: Write)
    requires Consistent(db)
    requires !w.PlanFrozen? && !w.StepSet? && !w.StepOutput? && !w.StepJudged?
    ensures Consistent(Apply(db, w))
  {
  }

  lemma {:induction false} WriteKeepsConsistent(db: Db, w: Write)
    requires Consistent(db) && Legal(db, w)
    ensures Consistent(Apply(db, w))
  {
    match w
    case PlanFrozen(plan) => FreezingKeepsKeys(db, plan); FreezingKeepsPlace(db, plan);
    case StepSet(step, status) => SettingKeeps(db, step, status);
    case StepOutput(step, output) => OutputKeeps(db, step, output);
    case StepJudged(step, verdict, next) =>
      if verdict.VerdictPass? {
        PassingKeeps(db, step, next);
      } else {
        FailingKeeps(db, step, verdict, next);
      }
    case _ => ElsewhereKeeps(db, w);
  }

  // -------------------------------------------------------------- replaying writes

  lemma {:induction false} ReplayAppend(db: Db, first: seq<Write>, second: seq<Write>)
    ensures Replay(db, first + second) == Replay(Replay(db, first), second)
    ensures AllLegal(db, first + second) <==> AllLegal(db, first) && AllLegal(Replay(db, first), second)
  {
    if second == [] {
      assert first + second == first;
    } else {
      var front := second[..|second| - 1];
      ReplayAppend(db, first, front);
      assert (first + second)[..|first + second| - 1] == first + front;
    }
  }

  lemma {:induction false} ReplayOne(db: Db, w: Write)
    ensures Replay(db, [w]) == Apply(db, w)
    ensures AllLegal(db, [w]) <==> Legal(db, w)
  {
    assert [w][..0] == [];
    assert Replay(db, []) == db;
  }

  lemma {:induction false} ReplayCons(db: Db, w: Write, rest: seq<Write>)
    ensures Replay(db, [w] + rest) == Replay(Apply(db, w), rest)
    ensures AllLegal(db, [w] + rest) <==> Legal(db, w) && AllLegal(Apply(db, w), rest)
  {
    ReplayAppend(db, [w], rest);
    ReplayOne(db, w);
  }

  lemma {:induction false} LegalPrefix(db: Db, writes: seq<Write>, k: nat)
    requires AllLegal(db, writes) && k <= |writes|
    ensures AllLegal(db, writes[..k])
  {
    assert writes[..k] + writes[k..] == writes;
    ReplayAppend(db, writes[..k], writes[k..]);
  }

  lemma {:induction false} WritesKeepConsistent(db: Db, writes: seq<Write>)
    requires Consistent(db) && AllLegal(db, writes)
    ensures Consistent(Replay(db, writes))
  {
    if writes != [] {
      WritesKeepConsistent(db, writes[..|writes| - 1]);
      WriteKeepsConsistent(Replay(db, writes[..|writes| - 1]), writes[|writes| - 1]);
    }
  }

  // ------------------------------------------------------------- every plan is legal

  lemma {:induction false} MoveLegal(db: Db, to: MissionState, force: bool)
    ensures AllLegal(db, MovePlan(db, to, force).writes)
    ensures var r := Replay(db, MovePlan(db, to, force).writes); r == db.(state := r.state, resume := r.resume)
  {
    if MovePlan(db, to, force).writes != [] {
      ReplayOne(db, MovePlan(db, to, force).writes[0]);
    }
  }

  lemma {:induction false} GatedMoveLegal(db: Db, gate: GateType, value: Gate, to: MissionState)
    ensures AllLegal(db, [GateSet(gate, value)] + MovePlan(Apply(db, GateSet(gate, value)), to, false).writes)
  {
    MoveLegal(Apply(db, GateSet(gate, value)), to, false);
    ReplayCons(db, GateSet(gate, value), MovePlan(Apply(db, GateSet(gate, value)), to, false).writes);
  }

  lemma {:induction false} InsertThenMove(db: Db, id: Id, task: HumanTask)
    ensures var writes := [TaskSet(id, task)] + MovePlan(Apply(db, TaskSet(id, task)), WaitingHuman, false).writes;
      && AllLegal(db, writes)
      && var r := Replay(db, writes); r == db.(state := r.state, resume := r.resume, tasks := r.tasks)
  {
    var w := TaskSet(id, task);
    ReplayCons(db, w, MovePlan(Apply(db, w), WaitingHuman, false).writes);
    MoveLegal(Apply(db, w), WaitingHuman, false);
  }

  lemma {:induction false} CreateTaskLegal(db: Db, id: Id, validType: bool, step: Option<Id>, assignee: Option<Id>)
    ensures AllLegal(db, CreateTask(db, id, validType, step, assignee).writes)
    ensures var r := Replay(db, CreateTask(db, id, validType, step, assignee).writes);
      r == db.(state := r.state, resume := r.resume, tasks := r.tasks)
  {
    var writes := CreateTask(db, id, validType, step, assignee).writes;
    if writes != [] {
      ReplayOne(db, writes[0]);
      InsertThenMove(db, id, writes[0].task);
    }
  }

  lemma {:induction false} ParkLegal(db: Db, row: Row, taskId: Id)
    requires db.cursor == Some(row.id)
    ensures AllLegal(db, ParkPlan(db, row, taskId).writes)
  {
    CreateTaskLegal(db, taskId, true, Some(row.id), None);
    var task := CreateTask(db, taskId, true, Some(row.id), None);
    ReplayAppend(db, task.writes, [StepSet(row.id, StepWaiting)]);
    ReplayOne(Replay(db, task.writes), StepSet(row.id, StepWaiting));
  }

  lemma {:induction false} InvokeLegal(db: Db, w: World, role: Role, capability: Id, step: Option<Id>,
      response: Response)
    ensures var plan := InvokePlan(db, w, role, capability, step, response);
      && |plan.writes| == 1 && plan.writes[0].AuditAppended? && AllLegal(db, plan.writes)
      && Replay(db, plan.writes) == db.(audit := db.audit + [plan.writes[0].row])
  {
    ReplayOne(db, InvokePlan(db, w, role, capability, step, response).writes[0]);
  }

  lemma {:induction false} RunStepLegal(db: Db, w: World, row: Row, response: Response, taskId: Id)
    requires db.cursor == Some(row.id)
    ensures AllLegal(db, RunStepPlan(db, w, row, response, taskId).writes)
  {
    if row.def.capability.Some? {
      var invoke := InvokePlan(db, w, Executor, row.def.capability.value, Some(row.id), response);
      InvokeLegal(db, w, Executor, row.def.capability.value, Some(row.id), response);
      var mid := Replay(db, invoke.writes);
      if invoke.outcome.Done? {
        var write := StepOutput(row.id, InvocationResult(row.def.capability.value, response.value));
        ReplayAppend(db, invoke.writes, [write]);
        ReplayOne(mid, write);
      } else {
        ParkLegal(mid, row, taskId);
        ReplayAppend(db, invoke.writes, ParkPlan(mid, row, taskId).writes);
      }
    }
  }

  lemma {:induction false} BlockingLegal(db: Db)
    ensures AllLegal(db, [GateSet(H3, Gate(false, Some(Rework))), StateSet(Blocked, db.resume)])
  {
    var block := GateSet(H3, Gate(false, Some(Rework)));
    ReplayCons(db, block, [StateSet(Blocked, db.resume)]);
    ReplayOne(Apply(db, block), StateSet(Blocked, db.resume));
    assert [block] + [StateSet(Blocked, db.resume)] == [block, StateSet(Blocked, db.resume)];
  }

  lemma {:induction false} StartedLegal(db: Db, w: World, row: Row, response: Response, taskId: Id)
    requires db.cursor == Some(row.id)
    ensures var start := StepSet(row.id, Running);
      AllLegal(db, [start] + RunStepPlan(Apply(db, start), w, row, response, taskId).writes)
  {
    var started := Apply(db, StepSet(row.id, Running));
    RunStepLegal(started, w, row, response, taskId);
    ReplayCons(db, StepSet(row.id, Running), RunStepPlan(started, w, row, response, taskId).writes);
  }

  lemma {:induction false} ExecuteLegal(db: Db, role: Role, w: World, response: Response, taskId: Id)
    ensures AllLegal(db, ExecuteCurrentStep(db, role, w, response, taskId).writes)
  {
    if role.Executor? && db.state.Executing? {
      if BaselineChanged(db, w) {
        BlockingLegal(db);
      } else if CurrentStep(db).None? {
        MoveLegal(db, WaitingH4, false);
      } else {
        StartedLegal(db, w, CurrentStep(db).value, response, taskId);
      }
    }
  }

  lemma {:induction false} EvaluateLegal(db: Db, role: Role, override: Option<Verdict>)
    ensures AllLegal(db, EvaluateCurrentStep(db, role, override).writes)
  {
    MoveLegal(db, WaitingH4, false);
    var writes := EvaluateCurrentStep(db, role, override).writes;
    if |writes| == 1 {
      ReplayOne(db, writes[0]);
      assert writes == [writes[0]];
    }
  }

  lemma {:induction false} ResumeLegal(db: Db, task: HumanTask)
    ensures AllLegal(db, ResumePlan(db, task).writes)
    ensures var r := Replay(db, ResumePlan(db, task).writes);
      r == db.(state := r.state, resume := r.resume, rows := r.rows)
  {
    var ready := ReadyWrites(db, task);
    if ready != [] {
      ReplayOne(db, ready[0]);
    }
    var move := MovePlan(Replay(db, ready), task.resume, false);
    MoveLegal(Replay(db, ready), task.resume, false);
    ReplayAppend(db, ready, move.writes);
  }

  lemma {:induction false} CompleteTaskLegal(db: Db, id: Id, user: Id)
    ensures AllLegal(db, CompleteTask(db, id, user).writes)
  {
    var writes := CompleteTask(db, id, user).writes;
    if writes != [] {
      ResumeLegal(Apply(db, writes[0]), db.tasks[id]);
      ReplayCons(db, writes[0], ResumePlan(Apply(db, writes[0]), db.tasks[id]).writes);
    }
  }

  lemma {:induction false} SubmitLegal(db: Db, role: Role, steps: seq<PlanStep>, taken: set<Id>)
    ensures AllLegal(db, SubmitPlan(db, role, steps, taken).writes)
  {
    if SubmitPlan(db, role, steps, taken).writes != [] {
      ReplayOne(db, PlanFrozen(Numbered(db.mission, steps)));
    }
  }

  lemma {:induction false} SingleLegal(db: Db, op: Operation)
    requires op.OpRequestReplan? || op.OpClaimStep? || op.OpPreflight? || op.OpSetGate? || op.OpClaimTask?
    ensures AllLegal(db, PlanOf(db, op).writes)
  {
    var writes := PlanOf(db, op).writes;
    if writes != [] {
      assert writes == [writes[0]];
      ReplayOne(db, writes[0]);
    }
  }

  lemma {:induction false} PlanLegal(db: Db, op: Operation)
    ensures AllLegal(db, PlanOf(db, op).writes)
  {
    match op
    case OpSubmitPlan(role, steps, taken) => SubmitLegal(db, role, steps, taken);
    case OpAuthorize(decision) =>
      ReplayOne(db, GateSet(H3, ReviewedGate(decision)));
      GatedMoveLegal(db, H3, ReviewedGate(decision), Executing);
    case OpInvoke(role, capability, step, world, response) => InvokeLegal(db, world, role, capability, step, response);
    case OpExecute(role, world, response, task) => ExecuteLegal(db, role, world, response, task);
    case OpEvaluate(role, override) => EvaluateLegal(db, role, override);
    case OpFinalize(decision) =>
      GatedMoveLegal(db, H4, ReviewedGate(decision), if ReviewedGate(decision).passed then Completed else Blocked);
    case OpCreateTask(id, validType, step, assignee) => CreateTaskLegal(db, id, validType, step, assignee);
    case OpCompleteTask(id, user) => CompleteTaskLegal(db, id, user);
    case OpTransition(to, force) => MoveLegal(db, to, force);
    case _ => SingleLegal(db, op);
  }

  /**
   Cursor prefix: under any interleaving of operations, table or forced transitions included, and
   with a crash between any two commits, every step before the cursor of the current plan is PASS
   and every step after it is untouched; without a cursor all steps of the plan are PASS.
   */
  lemma {:induction false} CursorPrefix(mission: Id, requirement: bool, release: bool, showcase: bool, steps: seq<Step>)
    ensures Consistent(Run(Fresh(mission, requirement, release, showcase), steps))
  {
    if steps != [] {
      var front, last := steps[..|steps| - 1], steps[|steps| - 1];
      CursorPrefix(mission, requirement, release, showcase, front);
      StepKeepsConsistent(Run(Fresh(mission, requirement, release, showcase), front), last);
    }
  }

  lemma {:induction false} StepKeepsConsistent(db: Db, step: Step)
    requires Consistent(db)
    ensures Consistent(After(db, step))
  {
    var writes := PlanOf(db, step.op).writes;
    PlanLegal(db, step.op);
    if step.survives < |writes| {
      LegalPrefix(db, writes, step.survives);
    }
    WritesKeepConsistent(db, Take(writes, step.survives));
  }
}

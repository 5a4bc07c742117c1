/**
 The defect lifecycle: observations correlated into defects, confirmation, fixes, verification
 obligations and closure. Each operation is described by the transactions it commits, in
 order; a process that dies leaves a prefix of them.
 */
module Defects {
  import opened Prelude

  type Id = string

  /** The five fields whose hash observations are correlated by; error and component are JSON texts. */
  datatype Signature = Fields(
    requirement: Option<Id>, sst: Option<Id>, dimension: Option<Id>, error: Id, component: Id)

  datatype Observation = Observation(
    requirement: Option<Id>, sst: Option<Id>, dimension: Option<Id>, error: Id, component: Id, layer: Option<Id>)
  {
    function Signature(): (s: Signature) {
      Fields(requirement, sst, dimension, error, component)
    }
  }

  datatype Diagnosis = Diagnosis(observation: Id, product: bool, confidence: Id)

  datatype Mode = HumanConfirm | AutoConfirmed

  datatype DefectStatus =
    | Triaged | Confirmed | Assigned | FixInProgress | WaitingDeployment | ReadyForRetest | Retesting
    | Verified | Reopened | Closed | NotADefect | Duplicate

  datatype Defect = Defect(
    mode: Mode, status: DefectStatus, confirmer: Option<Id>,
    first: Option<Id>, layers: seq<Id>, observations: seq<Id>, deployment: Option<Id>)

  datatype ObligationStatus = Pending | Dispatched | Pass | Fail | Blocked

  datatype Obligation = Obligation(defect: Id, layer: Id, dimension: Id, status: ObligationStatus)

  /** Rows in insertion order where a query's order matters. */
  datatype Db = Db(
    observations: map<Id, Observation>, diagnoses: map<Id, Diagnosis>,
    defects: map<Id, Defect>, order: seq<Id>,
    obligations: map<Id, Obligation>, keys: seq<Id>)

  const EMPTY := Db(map[], map[], map[], [], map[], [])

  predicate Terminal(status: DefectStatus) {
    status in {Closed, NotADefect, Duplicate}
  }

  predicate Open(db: Db, defect: Id) {
    defect in db.defects && !Terminal(db.defects[defect].status)
  }

  datatype Decision = Confirm | RejectAsNoDefect | MarkDuplicate

  function Decided(decision: Decision): (r: DefectStatus) {
    match decision
    case Confirm => Confirmed
    case RejectAsNoDefect => NotADefect
    case MarkDuplicate => Duplicate
  }

  // --------------------------------------------------------------------- writes

  datatype Write =
    | ObservationRecorded(id: Id, observation: Observation)
    | DiagnosisRecorded(id: Id, diagnosis: Diagnosis)
    | DefectOpened(id: Id, defect: Defect)
    | ObservationMerged(id: Id, source: Id)
    | DefectDecided(id: Id, decision: Decision, reviewer: Id)
    | FixRegistered(id: Id, deployment: Option<Id>)
    | ObligationInserted(key: Id, obligation: Obligation)
    | ObligationDispatched(key: Id)
    | RetestStarted(id: Id)
    | ResultRecorded(key: Id, result: ObligationStatus)
    | ConclusionDrawn(id: Id, verified: bool)
    | DefectClosed(id: Id)

  /** Python's `if text`: there is one and it is not empty. */
  predicate Given(text: Option<Id>) {
    text.Some? && text.value != ""
  }

  function WithLayer(layers: seq<Id>, layer: Option<Id>): (r: seq<Id>) {
    if Given(layer) && layer.value !in layers then layers + [layer.value] else layers
  }

  function WithObservation(observations: seq<Id>, id: Id): (r: seq<Id>) {
    if id in observations then observations else observations + [id]
  }

  /** Changes one defect row, if it exists. */
  function SetDefect(db: Db, id: Id, status: DefectStatus): (r: Db) {
    if id in db.defects then db.(defects := db.defects[id := db.defects[id].(status := status)]) else db
  }

  function SetObligation(db: Db, key: Id, status: ObligationStatus): (r: Db) {
    if key in db.obligations then db.(obligations := db.obligations[key := db.obligations[key].(status := status)])
      else db
  }

  function Apply(db: Db, w: Write): (r: Db) {
    match w
    case ObservationRecorded(id, observation) => db.(observations := db.observations[id := observation])
    case DiagnosisRecorded(id, diagnosis) => db.(diagnoses := db.diagnoses[id := diagnosis])
    case DefectOpened(id, defect) => db.(defects := db.defects[id := defect], order := db.order + [id])
    case ObservationMerged(id, source) =>
      if id in db.defects && source in db.observations then
        var d := db.defects[id];
        db.(defects := db.defects[id := d.(observations := WithObservation(d.observations, source),
                                          layers := WithLayer(d.layers, db.observations[source].layer))])
      else db
    case DefectDecided(id, decision, reviewer) =>
      if id in db.defects then
        db.(defects := db.defects[id := db.defects[id].(status := Decided(decision), confirmer := Some(reviewer))])
      else db
    case FixRegistered(id, deployment) =>
      if id in db.defects then
        db.(defects := db.defects[id := db.defects[id].(
          status := if Given(deployment) then ReadyForRetest else WaitingDeployment, deployment := deployment)])
      else db
    case ObligationInserted(key, obligation) =>
      if key in db.obligations then db
      else db.(obligations := db.obligations[key := obligation], keys := db.keys + [key])
    case ObligationDispatched(key) => SetObligation(db, key, Dispatched)
    case RetestStarted(id) => SetDefect(db, id, Retesting)
    case ResultRecorded(key, result) => SetObligation(db, key, result)
    case ConclusionDrawn(id, verified) => SetDefect(db, id, if verified then Verified else Reopened)
    case DefectClosed(id) => SetDefect(db, id, Closed)
  }

  function Replay(db: Db, writes: seq<Write>): (r: Db) {
    if writes == [] then db else Apply(Replay(db, writes[..|writes| - 1]), writes[|writes| - 1])
  }

  // -------------------------------------------------------------------- queries

  /** Whether one of the observations attached to the defect has the signature. */
  predicate Carries(db: Db, defect: Id, signature: Signature) {
    && defect in db.defects
    && exists o | o in db.defects[defect].observations ::
         o in db.observations && db.observations[o].Signature() == signature
  }

  predicate Candidate(db: Db, defect: Id, signature: Signature) {
    Open(db, defect) && Carries(db, defect, signature)
  }

  function FirstCandidate(db: Db, order: seq<Id>, signature: Signature): (r: Option<Id>)
    ensures r.Some? ==> r.value in order && Candidate(db, r.value, signature)
    ensures r.None? ==> forall d | d in order :: !Candidate(db, d, signature)
  {
    if order == [] then None
    else if Candidate(db, order[0], signature) then Some(order[0])
    else FirstCandidate(db, order[1..], signature)
  }

  /** The query returns one matching row, whichever it likes; `pick` is its preference. */
  function Existing(db: Db, signature: Signature, pick: Id): (r: Option<Id>) {
    if Candidate(db, pick, signature) then Some(pick) else FirstCandidate(db, db.order, signature)
  }

  function KeysOf(db: Db, keys: seq<Id>, defect: Id): (r: seq<Id>)
    ensures forall k :: k in r <==> k in keys && k in db.obligations && db.obligations[k].defect == defect
  {
    if keys == [] then []
    else
      (if keys[0] in db.obligations && db.obligations[keys[0]].defect == defect then [keys[0]] else []) +
      KeysOf(db, keys[1..], defect)
  }

  function ObligationsOf(db: Db, defect: Id): (r: seq<Id>) {
    KeysOf(db, db.keys, defect)
  }

  predicate AllPassed(db: Db, keys: seq<Id>) {
    forall k | k in keys :: k in db.obligations && db.obligations[k].status.Pass?
  }

  predicate AnyFailed(db: Db, keys: seq<Id>) {
    exists k | k in keys :: k in db.obligations && db.obligations[k].status.Fail?
  }

  // ---------------------------------------------------- which obligations a fix needs

  const LAYERS: seq<Id> := ["L1", "L2", "L3", "L4", "L5", "L6", "L7"]
  const PROPAGATED: seq<Id> := ["L3", "L4", "L5"]

  predicate Downstream(first: Id, layer: Id) {
    exists i, j :: 0 <= i <= j < |LAYERS| && LAYERS[i] == first && LAYERS[j] == layer
  }

  /** The layers a retest has to cover: where it was seen, and downstream of where it was first seen. */
  predicate Required(d: Defect, layer: Id) {
    || layer in d.layers
    || (Given(d.first) && (layer == d.first.value || (layer in PROPAGATED && Downstream(d.first.value, layer))))
  }

  function RequiredOf(d: Defect, candidates: seq<Id>): (r: seq<Id>)
    ensures forall l :: l in r <==> l in candidates && Required(d, l)
  {
    if candidates == [] then []
    else (if Required(d, candidates[0]) then [candidates[0]] else []) + RequiredOf(d, candidates[1..])
  }

  function Unranked(layers: seq<Id>): (r: seq<Id>)
    ensures forall l :: l in r <==> l in layers && l !in LAYERS
  {
    if layers == [] then [] else (if layers[0] in LAYERS then [] else [layers[0]]) + Unranked(layers[1..])
  }

  /** The required layers, the known ones in their order first. */
  function RequiredLayers(d: Defect): (r: seq<Id>)
    ensures forall l :: l in r <==> Required(d, l)
  {
    var extra := if Given(d.first) && d.first.value !in d.layers then [d.first.value] else [];
    RequiredOf(d, LAYERS) + Unranked(d.layers + extra)
  }

  const FUNCTIONAL: Id := "FUNCTIONAL"

  function DimensionOf(o: Observation): (dimension: Id) {
    if Given(o.dimension) then o.dimension.value else FUNCTIONAL
  }

  /** The dimensions of the attached observations, each once. */
  function Dimensions(db: Db, observations: seq<Id>): (r: seq<Id>)
    ensures forall m :: m in r <==>
              exists o | o in observations :: o in db.observations && DimensionOf(db.observations[o]) == m
  {
    if observations == [] then []
    else
      var last, rest := observations[|observations| - 1], Dimensions(db, observations[..|observations| - 1]);
      if last in db.observations && DimensionOf(db.observations[last]) !in rest
      then rest + [DimensionOf(db.observations[last])] else rest
  }

  function ObligationId(defect: Id, layer: Id, dimension: Id): (key: Id) {
    "VO-" + defect + "-" + layer + "-" + dimension
  }

  function ForLayer(defect: Id, layer: Id, dimensions: seq<Id>): (writes: seq<Write>)
    ensures |writes| == |dimensions|
  {
    seq(|dimensions|, i requires 0 <= i < |dimensions| =>
      ObligationInserted(ObligationId(defect, layer, dimensions[i]), Obligation(defect, layer, dimensions[i], Pending)))
  }

  function ForLayers(defect: Id, layers: seq<Id>, dimensions: seq<Id>): (writes: seq<Write>) {
    if layers == [] then []
    else ForLayers(defect, layers[..|layers| - 1], dimensions) + ForLayer(defect, layers[|layers| - 1], dimensions)
  }

  function ObligationWrites(db: Db, defect: Id): (writes: seq<Write>)
    requires defect in db.defects
  {
    ForLayers(defect, RequiredLayers(db.defects[defect]), Dimensions(db, db.defects[defect].observations))
  }

  // ----------------------------------------------------------------- operations

  datatype Failure = UniqueViolation | NotFound | NotFixable | NotReady | InvalidValue | NotSatisfied | NotVerified

  datatype Outcome = Done | NotAProductDefect | Raised(failure: Failure)

  datatype Plan = Plan(writes: seq<Write>, outcome: Outcome)

  /**
   Upper case as far as it can yield the words compared below: of the characters beyond ASCII only
   the long s and the dotless i become one of their letters, and the ligatures, which become
   SS, FF, FI, FL or ST, none of their pairs.
   */
  function UpperChar(c: char): (r: char) {
    if 'a' <= c <= 'z' then c - 'a' + 'A'
    else if c == '\U{017F}' then 'S'
    else if c == '\U{0131}' then 'I'
    else c
  }

  function Upper(text: Id): (r: Id) {
    seq(|text|, i requires 0 <= i < |text| => UpperChar(text[i]))
  }

  /** A defect in such a dimension is never confirmed by the machine. */
  predicate Sensitive(dimension: Option<Id>) {
    dimension.Some? && Upper(dimension.value) in {"SECURITY", "PERFORMANCE"}
  }

  /** How a product defect gets confirmed. */
  function ConfirmationMode(confidence: Id, severity: Id, dimension: Option<Id>): (mode: Mode) {
    if Upper(severity) in {"S0", "S1"} || Sensitive(dimension) || Upper(confidence) !in {"HIGH", "CERTAIN"}
    then HumanConfirm else AutoConfirmed
  }

  function NewDefect(mode: Mode, source: Id, o: Observation, actor: Id): (d: Defect) {
    Defect(mode, if mode.AutoConfirmed? then Confirmed else Triaged, if mode.AutoConfirmed? then Some(actor) else None,
           o.layer, WithLayer([], o.layer), [source], None)
  }

  function Correlate(db: Db, diagnosis: Id, newId: Id, severity: Id, actor: Id, pick: Id): (plan: Plan) {
    if diagnosis !in db.diagnoses || db.diagnoses[diagnosis].observation !in db.observations
      then Plan([], Raised(NotFound))
    else if !db.diagnoses[diagnosis].product then Plan([], NotAProductDefect)
    else
      var source := db.diagnoses[diagnosis].observation;
      var o := db.observations[source];
      match Existing(db, o.Signature(), pick)
      case Some(id) => Plan([ObservationMerged(id, source)], Done)
      case None =>
        if newId in db.defects then Plan([], Raised(UniqueViolation))
        else
          var mode := ConfirmationMode(db.diagnoses[diagnosis].confidence, severity, o.dimension);
          Plan([DefectOpened(newId, NewDefect(mode, source, o, actor))], Done)
  }

  /** There is no check of the defect's status. */
  function ConfirmDefect(db: Db, id: Id, reviewer: Id, decision: Option<Decision>): (plan: Plan) {
    if id !in db.defects then Plan([], Raised(NotFound))
    else if decision.None? then Plan([], Raised(InvalidValue))
    else Plan([DefectDecided(id, decision.value, reviewer)], Done)
  }

  function RegisterFix(db: Db, id: Id, deployment: Option<Id>): (plan: Plan) {
    if id !in db.defects then Plan([], Raised(NotFound))
    else if db.defects[id].status !in {Confirmed, Assigned, FixInProgress, Reopened} then Plan([], Raised(NotFixable))
    else
      var fix := FixRegistered(id, deployment);
      if !Given(deployment) then Plan([fix], Done)
      else Plan([fix] + ObligationWrites(Apply(db, fix), id), Done)
  }

  function DispatchAll(keys: seq<Id>): (writes: seq<Write>)
    ensures |writes| == |keys|
  {
    seq(|keys|, i requires 0 <= i < |keys| => ObligationDispatched(keys[i]))
  }

  function InsertedKeys(writes: seq<Write>): (keys: seq<Id>) {
    if writes == [] then []
    else InsertedKeys(writes[..|writes| - 1]) + if writes[|writes| - 1].ObligationInserted?
      then [writes[|writes| - 1].key] else []
  }

  function DispatchRetest(db: Db, id: Id): (plan: Plan) {
    if id !in db.defects then Plan([], Raised(NotFound))
    else if db.defects[id].status !in {ReadyForRetest, Retesting} then Plan([], Raised(NotReady))
    else
      var inserts := if ObligationsOf(db, id) == [] then ObligationWrites(db, id) else [];
      var keys := if ObligationsOf(db, id) == [] then InsertedKeys(inserts) else ObligationsOf(db, id);
      Plan(inserts + (DispatchAll(keys) + [RetestStarted(id)]), Done)
  }

  /** What the defect becomes once a result is stored; nothing while results are still missing. */
  function Conclusion(db: Db, id: Id): (writes: seq<Write>) {
    var keys := ObligationsOf(db, id);
    if keys != [] && AllPassed(db, keys) then [ConclusionDrawn(id, true)]
    else if AnyFailed(db, keys) then [ConclusionDrawn(id, false)]
    else []
  }

  /** There is no check of the defect's status. */
  function RecordResult(db: Db, key: Id, result: ObligationStatus): (plan: Plan) {
    if result !in {Pass, Fail, Blocked} then Plan([], Raised(InvalidValue))
    else if key !in db.obligations then Plan([], Raised(NotFound))
    else Plan([ResultRecorded(key, result)] +
      Conclusion(Apply(db, ResultRecorded(key, result)), db.obligations[key].defect), Done)
  }

  function CloseDefect(db: Db, id: Id): (plan: Plan) {
    if id !in db.defects then Plan([], Raised(NotFound))
    else if ObligationsOf(db, id) == [] || !AllPassed(db, ObligationsOf(db, id)) then Plan([], Raised(NotSatisfied))
    else if !db.defects[id].status.Verified? then Plan([], Raised(NotVerified))
    else Plan([DefectClosed(id)], Done)
  }

  // ------------------------------------------------------------------ whole runs

  datatype Operation =
    | OpObserve(id: Id, observation: Observation)
    | OpDiagnose(id: Id, row: Diagnosis)
    | OpCorrelate(diagnosis: Id, newId: Id, severity: Id, actor: Id, pick: Id)
    | OpConfirm(id: Id, reviewer: Id, decision: Option<Decision>)
    | OpRegisterFix(id: Id, deployment: Option<Id>)
    | OpDispatch(id: Id)
    | OpRecordResult(key: Id, result: ObligationStatus)
    | OpClose(id: Id)

  function PlanOf(db: Db, op: Operation): (plan: Plan) {
    match op
    case OpObserve(id, o) =>
      if id in db.observations then Plan([], Raised(UniqueViolation)) else Plan([ObservationRecorded(id, o)], Done)
    case OpDiagnose(id, d) =>
      if d.observation !in db.observations then Plan([], Raised(NotFound))
      else if id in db.diagnoses then Plan([], Raised(UniqueViolation))
      else Plan([DiagnosisRecorded(id, d)], Done)
    case OpCorrelate(diagnosis, newId, severity, actor, pick) => Correlate(db, diagnosis, newId, severity, actor, pick)
    case OpConfirm(id, reviewer, decision) => ConfirmDefect(db, id, reviewer, decision)
    case OpRegisterFix(id, deployment) => RegisterFix(db, id, deployment)
    case OpDispatch(id) => DispatchRetest(db, id)
    case OpRecordResult(key, result) => RecordResult(db, key, result)
    case OpClose(id) => CloseDefect(db, id)
  }

  /** An operation that dies after `survives` commits; a large number means it does not. */
  datatype Step = Step(op: Operation, survives: nat)

  function Take(writes: seq<Write>, n: nat): (r: seq<Write>)
    ensures r <= writes
  {
    if n < |writes| then writes[..n] else writes
  }

  function After(db: Db, step: Step): (r: Db) {
    Replay(db, Take(PlanOf(db, step.op).writes, step.survives))
  }

  /** Everything a run has committed, in order. */
  function Journal(steps: seq<Step>): (writes: seq<Write>) {
    if steps == [] then []
    else
      var front, last := Journal(steps[..|steps| - 1]), steps[|steps| - 1];
      front + Take(PlanOf(Replay(EMPTY, front), last.op).writes, last.survives)
  }

  /** The tables after a run. */
  function Run(steps: seq<Step>): (db: Db) {
    Replay(EMPTY, Journal(steps))
  }
}

/** What a closed defect has been through, and how observations and defects stay in step. */
module DefectTheorems {
  import opened Prelude
  import opened Defects
  import opened DefectInvariants

  // -------------------------------------------------------------------- closure

  /**
   Closure soundness. Whenever a defect can be closed, in any run with crashes anywhere, it was
   confirmed, a deployed fix was registered for it, and it has obligations, all of them with a
   PASS that no later dispatch of a retest has put in question.
   */
  lemma {:induction false} ClosureSound(steps: seq<Step>, id: Id)
    requires CloseDefect(Run(steps), id).outcome.Done?
    ensures EverConfirmed(Journal(steps), id) && EverDeployed(Journal(steps), id)
    ensures HasObligation(Run(steps), id)
    ensures forall k | k in Run(steps).obligations && Run(steps).obligations[k].defect == id ::
              Run(steps).obligations[k].status.Pass? && PassedSinceRetest(Journal(steps), k, id)
  {
    RunLegal(steps);
    var db := Run(steps);
    assert ObligationsOf(db, id)[0] in ObligationsOf(db, id);
    assert HasObligation(db, id);
    forall k | k in db.obligations && db.obligations[k].defect == id ensures db.obligations[k].status.Pass? {
      assert k in ObligationsOf(db, id);
    }
  }

  /** Nobody has decided about it: such a defect waits for a human, untouched. */
  lemma {:induction false} UndecidedIsTriaged(steps: seq<Step>, id: Id)
    requires id in Run(steps).defects && Run(steps).defects[id].confirmer.None?
    ensures Run(steps).defects[id].mode.HumanConfirm? && Run(steps).defects[id].status.Triaged?
    ensures !HasObligation(Run(steps), id)
  {
    RunLegal(steps);
  }

  /** Confirmed by the machine only when it is sure, the defect is not severe and the dimension not sensitive. */
  lemma {:induction false} OnlyCertainIsAutomatic(steps: seq<Step>, diagnosis: Id, newId: Id, severity: Id, actor: Id,
      pick: Id)
    requires var plan := Correlate(Run(steps), diagnosis, newId, severity, actor, pick);
      plan.writes != [] && plan.writes[0].DefectOpened?
    ensures var d := Correlate(Run(steps), diagnosis, newId, severity, actor, pick).writes[0].defect;
      var row := Run(steps).diagnoses[diagnosis];
      d.status.Confirmed? <==>
        && Upper(row.confidence) in {"HIGH", "CERTAIN"} && Upper(severity) !in {"S0", "S1"}
        && (Run(steps).observations[row.observation].dimension.Some? ==>
              Upper(Run(steps).observations[row.observation].dimension.value) !in {"SECURITY", "PERFORMANCE"})
  {
  }

  // --------------------------------------------------------------- index agreement

  /** All observations of a defect share its signature, and its layers are exactly theirs. */
  lemma {:induction false} IndexAgreement(steps: seq<Step>, id: Id)
    requires id in Run(steps).defects
    ensures DefectIndexed(Run(steps), Run(steps).defects[id])
  {
    RunLegal(steps);
  }

  function SignatureOf(db: Db, id: Id): (signature: Option<Signature>) {
    if id in db.defects && db.defects[id].observations != [] && db.defects[id].observations[0] in db.observations
    then Some(db.observations[db.defects[id].observations[0]].Signature()) else None
  }

  ghost predicate UniqueOpen(db: Db) {
    forall d, e :: Open(db, d) && Open(db, e) && SignatureOf(db, d) == SignatureOf(db, e) ==> d == e
  }

  /** The terminal defect a write would bring back, if any. */
  function RevivedBy(db: Db, w: Write): (id: Option<Id>) {
    match w
    case DefectDecided(d, decision, _) =>
      if d in db.defects && Terminal(db.defects[d].status) && decision.Confirm? then Some(d) else None
    case ConclusionDrawn(d, _) => if d in db.defects && Terminal(db.defects[d].status) then Some(d) else None
    case _ => None
  }

  /** Another open defect has the signature of this one. */
  ghost predicate Rivalled(db: Db, id: Id) {
    exists other :: other != id && Open(db, other) && SignatureOf(db, other) == SignatureOf(db, id)
  }

  lemma {:induction false} SameSignature(db: Db, r: Db, id: Id)
    requires id in db.defects && DefectIndexed(db, db.defects[id]) && id in r.defects
    requires db.defects[id].observations <= r.defects[id].observations
    requires forall o | o in db.observations :: o in r.observations && r.observations[o] == db.observations[o]
    ensures SignatureOf(r, id) == SignatureOf(db, id)
  {
  }

  lemma {:induction false} SignatureStays(db: Db, w: Write, id: Id)
    requires Indexed(db) && Legal(db, w) && id in db.defects
    ensures id in Apply(db, w).defects && SignatureOf(Apply(db, w), id) == SignatureOf(db, id)
  {
    if StatusOnly(w) {
      StatusFrame(db, w);
    }
    SameSignature(db, Apply(db, w), id);
  }

  lemma {:induction false} OpenBefore(db: Db, w: Write, id: Id)
    requires Legal(db, w) && id in db.defects && Open(Apply(db, w), id)
    ensures Open(db, id) || RevivedBy(db, w) == Some(id)
  {
    if Decides(w, id) {
      DecidedFrame(db, w, id);
    } else {
      UndecidedFrame(db, w, id);
    }
  }

  lemma {:induction false} RevivedIsOpen(db: Db, w: Write, id: Id)
    requires RevivedBy(db, w) == Some(id)
    ensures Open(Apply(db, w), id)
    ensures forall e :: e != id && Open(db, e) ==> Open(Apply(db, w), e)
  {
  }

  lemma {:induction false} OnlyOpenedIsNew(db: Db, w: Write, d: Id)
    requires Legal(db, w) && d in Apply(db, w).defects && d !in db.defects
    ensures w.DefectOpened? && w.id == d
  {
  }

  /** A newly opened defect has a signature no open defect has. */
  lemma {:induction false} OpenedIsAlone(db: Db, id: Id, d: Defect, e: Id)
    requires Indexed(db) && Legal(db, DefectOpened(id, d)) && Open(db, e)
    ensures SignatureOf(Apply(db, DefectOpened(id, d)), id) != SignatureOf(db, e)
  {
    var source, actor, o :| source in db.observations && db.observations[source] == o
                            && d == NewDefect(d.mode, source, o, actor) && forall e :: !Candidate(db, e, o.Signature());
    assert d.observations[0] == source;
    assert !Candidate(db, e, o.Signature());
    assert DefectIndexed(db, db.defects[e]);
    assert db.defects[e].observations[0] in db.defects[e].observations;
  }

  lemma {:induction false} StaysUnique(db: Db, w: Write, d: Id, e: Id)
    requires Indexed(db) && UniqueOpen(db) && Legal(db, w)
    requires RevivedBy(db, w).Some? ==> !Rivalled(db, RevivedBy(db, w).value)
    requires var r := Apply(db, w); Open(r, d) && Open(r, e) && SignatureOf(r, d) == SignatureOf(r, e)
    ensures d == e
  {
    if d in db.defects && e in db.defects {
      SignatureStays(db, w, d);
      SignatureStays(db, w, e);
      OpenBefore(db, w, d);
      OpenBefore(db, w, e);
    } else {
      var opened', other := if d in db.defects then e else d, if d in db.defects then d else e;
      OnlyOpenedIsNew(db, w, opened');
      if other in db.defects {
        OpenBefore(db, w, other);
        SignatureStays(db, w, other);
        OpenedIsAlone(db, opened', w.defect, other);
      } else {
        OnlyOpenedIsNew(db, w, other);
      }
    }
  }

  /**
   One open defect per signature survives a commit exactly when the commit does not bring a
   terminal defect back beside another open one of its signature.
   */
  lemma {:induction false} UniqueUnlessRevived(db: Db, w: Write)
    requires Indexed(db) && UniqueOpen(db) && Legal(db, w)
    ensures UniqueOpen(Apply(db, w)) <==> !(RevivedBy(db, w).Some? && Rivalled(db, RevivedBy(db, w).value))
  {
    var r := Apply(db, w);
    if RevivedBy(db, w).Some? && Rivalled(db, RevivedBy(db, w).value) {
      var id := RevivedBy(db, w).value;
      var other :| other != id && Open(db, other) && SignatureOf(db, other) == SignatureOf(db, id);
      RevivedIsOpen(db, w, id);
      SignatureStays(db, w, id);
      SignatureStays(db, w, other);
      assert Open(r, id) && Open(r, other);
    } else {
      forall d, e | Open(r, d) && Open(r, e) && SignatureOf(r, d) == SignatureOf(r, e) ensures d == e {
        StaysUnique(db, w, d, e);
      }
    }
  }

  /** No commit of the run brought a terminal defect back. */
  predicate NoRevival(journal: seq<Write>) {
    journal == [] ||
    (NoRevival(journal[..|journal| - 1]) && RevivedBy(Replay(EMPTY, journal[..|journal| - 1]),
      journal[|journal| - 1]).None?)
  }

  lemma {:induction false} JournalUnique(journal: seq<Write>)
    requires AllLegal(EMPTY, journal) && NoRevival(journal)
    ensures UniqueOpen(Replay(EMPTY, journal))
  {
    if journal != [] {
      var front, last := journal[..|journal| - 1], journal[|journal| - 1];
      JournalUnique(front);
      JournalKeeps(front);
      UniqueUnlessRevived(Replay(EMPTY, front), last);
    }
  }

  /** Unless a terminal defect is brought back, there is at most one open defect per signature. */
  lemma {:induction false} OneOpenPerSignature(steps: seq<Step>, d: Id, e: Id)
    requires NoRevival(Journal(steps))
    requires Open(Run(steps), d) && Open(Run(steps), e) && SignatureOf(Run(steps), d) == SignatureOf(Run(steps), e)
    ensures d == e
  {
    RunLegal(steps);
    JournalUnique(Journal(steps));
  }

  // ---------------------------------------------------------------------- dead ends

  /** A defect that waits for the deployment of its fix and has no obligations. */
  predicate Undeployed(db: Db, id: Id) {
    id in db.defects && db.defects[id].status.WaitingDeployment? && !HasObligation(db, id)
  }

  lemma {:induction false} UndeployedStays(db: Db, w: Write, id: Id)
    requires Undeployed(db, id) && Legal(db, w) && !Releases(w, id)
    ensures Undeployed(Apply(db, w), id)
  {
    ObligationsFrame(db, w, id);
    if Decides(w, id) {
      DecidedFrame(db, w, id);
    } else {
      UndecidedFrame(db, w, id);
    }
  }

  lemma {:induction false} UndeployedKept(db: Db, writes: seq<Write>, id: Id)
    requires Undeployed(db, id) && AllLegal(db, writes)
    requires DecidesNot(writes, id)
    ensures Undeployed(Replay(db, writes), id)
  {
    if writes != [] {
      UndeployedKept(db, writes[..|writes| - 1], id);
      UndeployedStays(Replay(db, writes[..|writes| - 1]), writes[|writes| - 1], id);
    }
  }

  /** The two kinds of commit that can take a defect out of WAITING_DEPLOYMENT. */
  predicate Releases(w: Write, id: Id) {
    (w.DefectDecided? || w.ConclusionDrawn?) && w.id == id
  }

  predicate DecidesNot(writes: seq<Write>, id: Id) {
    forall w | w in writes :: !Releases(w, id)
  }

  predicate Waits(db: Db, id: Id) {
    id in db.defects && db.defects[id].status.WaitingDeployment?
  }

  /** Exactly these two kinds of commit do. */
  lemma {:induction false} WaitingLeftBy(db: Db, w: Write, id: Id)
    requires Legal(db, w) && Waits(db, id)
    ensures Waits(Apply(db, w), id) <==> !Releases(w, id)
  {
    if Decides(w, id) {
      DecidedFrame(db, w, id);
    } else {
      UndecidedFrame(db, w, id);
    }
  }

  lemma {:induction false} WaitingKept(db: Db, writes: seq<Write>, id: Id)
    requires AllLegal(db, writes) && Waits(db, id) && DecidesNot(writes, id)
    ensures Waits(Replay(db, writes), id)
  {
    if writes != [] {
      WaitingKept(db, writes[..|writes| - 1], id);
      WaitingLeftBy(Replay(db, writes[..|writes| - 1]), writes[|writes| - 1], id);
    }
  }

  lemma {:induction false} InsertsDecideNot(writes: seq<Write>, of: Id, id: Id)
    requires InsertsFor(writes, of)
    ensures DecidesNot(writes, id)
  {
  }

  lemma {:induction false} RegisterDecidesNot(db: Db, of: Id, deployment: Option<Id>, id: Id)
    ensures DecidesNot(RegisterFix(db, of, deployment).writes, id)
  {
    if of in db.defects {
      var mid := Apply(db, FixRegistered(of, deployment));
      ForLayersInsert(of, RequiredLayers(mid.defects[of]), Dimensions(mid, mid.defects[of].observations));
      InsertsDecideNot(ObligationWrites(mid, of), of, id);
    }
  }

  lemma {:induction false} DispatchDecidesNot(db: Db, of: Id, id: Id)
    ensures DecidesNot(DispatchRetest(db, of).writes, id)
  {
    if of in db.defects {
      ForLayersInsert(of, RequiredLayers(db.defects[of]), Dimensions(db, db.defects[of].observations));
      InsertsDecideNot(ObligationWrites(db, of), of, id);
    }
  }

  /** Operations other than a decision about this defect or a result of its retest never do. */
  lemma {:induction false} OthersDoNotDecide(db: Db, op: Operation, id: Id)
    requires op.OpConfirm? ==> op.id != id
    requires op.OpRecordResult? && op.key in db.obligations ==> db.obligations[op.key].defect != id
    ensures DecidesNot(PlanOf(db, op).writes, id)
  {
    if op.OpRegisterFix? {
      RegisterDecidesNot(db, op.id, op.deployment, id);
    } else if op.OpDispatch? {
      DispatchDecidesNot(db, op.id, id);
    }
  }

  /** The step commits a decision about the defect, or a result of its retest together with a conclusion. */
  predicate StepReleases(db: Db, step: Step, id: Id) {
    || (step.op.OpConfirm? && step.op.id == id && step.op.decision.Some? && step.survives > 0)
    || (step.op.OpRecordResult? && step.op.key in db.obligations && db.obligations[step.op.key].defect == id
        && step.op.result in {Pass, Fail, Blocked} && step.survives > 1
        && Conclusion(Apply(db, ResultRecorded(step.op.key, step.op.result)), id) != [])
  }

  /** The only ways out of WAITING_DEPLOYMENT, whatever the step and wherever it dies. */
  lemma {:induction false} WaitingLeftIff(db: Db, step: Step, id: Id)
    requires Indexed(db) && Waits(db, id)
    ensures Waits(After(db, step), id) <==> !StepReleases(db, step, id)
  {
    var kept := Take(PlanOf(db, step.op).writes, step.survives);
    StepLegal(db, step);
    if step.op.OpConfirm? && step.op.id == id {
      DecisionReleases(db, step, id, kept);
    } else if step.op.OpRecordResult? && step.op.key in db.obligations && db.obligations[step.op.key].defect == id {
      ResultReleases(db, step, id, kept);
    } else {
      OthersDoNotDecide(db, step.op, id);
      WaitingKept(db, kept, id);
    }
  }

  lemma {:induction false} DecisionReleases(db: Db, step: Step, id: Id, kept: seq<Write>)
    requires Waits(db, id) && step.op.OpConfirm? && step.op.id == id
        && kept == Take(PlanOf(db, step.op).writes, step.survives)
    ensures Waits(Replay(db, kept), id) <==> !StepReleases(db, step, id)
  {
    if step.op.decision.Some? && step.survives > 0 {
      ReplayOne(db, DefectDecided(id, step.op.decision.value, step.op.reviewer));
    }
  }

  lemma {:induction false} ResultReleases(db: Db, step: Step, id: Id, kept: seq<Write>)
    requires Waits(db, id) && kept == Take(PlanOf(db, step.op).writes, step.survives)
    requires step.op.OpRecordResult? && step.op.key in db.obligations && db.obligations[step.op.key].defect == id
    ensures Waits(Replay(db, kept), id) <==> !StepReleases(db, step, id)
  {
    if step.op.result in {Pass, Fail, Blocked} {
      var first := ResultRecorded(step.op.key, step.op.result);
      ResultAndConclusion(db, first, Conclusion(Apply(db, first), id), id, step.survives);
    }
  }

  lemma {:induction false} TakeOfTwo(first: Write, conclusion: seq<Write>, n: nat)
    requires |conclusion| <= 1
    ensures Take([first] + conclusion, n) ==
            if n == 0 then [] else if n == 1 || conclusion == [] then [first] else [first] + [conclusion[0]]
  {
  }

  lemma {:induction false} ResultAndConclusion(db: Db, first: Write, conclusion: seq<Write>, id: Id, survives: nat)
    requires Waits(db, id) && first.ResultRecorded? && |conclusion| <= 1
    requires conclusion != [] ==> conclusion[0].ConclusionDrawn? && conclusion[0].id == id
    ensures Waits(Replay(db, Take([first] + conclusion, survives)), id) <==> !(survives > 1 && conclusion != [])
  {
    TakeOfTwo(first, conclusion, survives);
    if survives > 1 && conclusion != [] {
      ConclusionReleases(db, first, conclusion[0], id);
    } else {
      ReplayOne(db, first);
    }
  }

  lemma {:induction false} ConclusionReleases(db: Db, first: Write, last: Write, id: Id)
    requires Waits(db, id) && first.ResultRecorded? && last.ConclusionDrawn? && last.id == id
    ensures !Waits(Replay(db, [first] + [last]), id)
  {
    ReplayPair(db, first, last);
  }

  /**
   Without obligations there is no retest either: until somebody decides about the defect again,
   nothing, in particular no further registration of a fix, takes it out of WAITING_DEPLOYMENT.
   */
  lemma {:induction false} WaitingDeploymentSticks(steps: seq<Step>, more: seq<Step>, id: Id)
    requires Undeployed(Run(steps), id)
    requires forall step | step in more :: step.op.OpConfirm? ==> step.op.id != id
    ensures Undeployed(Run(steps + more), id)
  {
    if more == [] {
      assert steps + more == steps;
    } else {
      var front, last := more[..|more| - 1], more[|more| - 1];
      assert forall step | step in front :: step in more;
      assert last in more;
      WaitingDeploymentSticks(steps, front, id);
      UndeployedStep(steps + front, last, id);
      SplitLast(steps, more);
    }
  }

  lemma {:induction false} SplitLast<T>(a: seq<T>, b: seq<T>)
    requires b != []
    ensures a + b == (a + b[..|b| - 1]) + [b[|b| - 1]]
  {
  }

  lemma {:induction false} UndeployedStep(steps: seq<Step>, step: Step, id: Id)
    requires Undeployed(Run(steps), id) && (step.op.OpConfirm? ==> step.op.id != id)
    ensures Undeployed(Run(steps + [step]), id)
  {
    RunLegal(steps);
    RunStep(steps, step);
    UndeployedAfter(Run(steps), step, id);
  }

  lemma {:induction false} UndeployedAfter(db: Db, step: Step, id: Id)
    requires Indexed(db) && Undeployed(db, id) && (step.op.OpConfirm? ==> step.op.id != id)
    ensures Undeployed(After(db, step), id)
  {
    StepLegal(db, step);
    OthersDoNotDecide(db, step.op, id);
    UndeployedKept(db, Take(PlanOf(db, step.op).writes, step.survives), id);
  }

  lemma {:induction false} ReplayPair(db: Db, a: Write, b: Write)
    ensures Replay(db, [a] + [b]) == Apply(Apply(db, a), b)
  {
    ReplayAppend(db, [a], [b]);
    ReplayOne(db, a);
    ReplayOne(Apply(db, a), b);
  }
}

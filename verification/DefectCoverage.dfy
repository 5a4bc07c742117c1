/** What the obligations of a fix cover, and what is lost when their creation is interrupted. */
module DefectCoverage {
  import opened Prelude
  import opened Defects
  import opened DefectInvariants

  // ----------------------------------------------------------- one dimension per defect

  /** The observation the defect was opened for. */
  function FirstSeen(db: Db, id: Id): (o: Option<Observation>) {
    if id in db.defects && db.defects[id].observations != [] && db.defects[id].observations[0] in db.observations
    then Some(db.observations[db.defects[id].observations[0]]) else None
  }

  /** The one dimension of the defect's obligations. */
  function DimensionAt(db: Db, id: Id): (dimension: Id) {
    if FirstSeen(db, id).Some? then DimensionOf(FirstSeen(db, id).value) else FUNCTIONAL
  }

  /** The dimension is part of what observations are correlated by, so a defect has a single one. */
  lemma {:induction false} OneDimension(steps: seq<Step>, id: Id)
    requires id in Run(steps).defects
    ensures var db := Run(steps);
      && (forall o | o in db.defects[id].observations ::
            o in db.observations && FirstSeen(db, id).Some?
              && db.observations[o].dimension == FirstSeen(db, id).value.dimension)
      && Dimensions(db, db.defects[id].observations) == [DimensionAt(db, id)]
  {
    RunIndexed(steps);
    SingleDimension(Run(steps), id);
  }

  lemma {:induction false} SingleDimension(db: Db, id: Id)
    requires Indexed(db) && id in db.defects
    ensures forall o | o in db.defects[id].observations ::
      o in db.observations && FirstSeen(db, id).Some?
        && db.observations[o].dimension == FirstSeen(db, id).value.dimension
    ensures Dimensions(db, db.defects[id].observations) == [DimensionAt(db, id)]
  {
    var first := FirstSeen(db, id).value;
    assert DefectIndexed(db, db.defects[id]);
    forall o | o in db.defects[id].observations ensures db.observations[o].dimension == first.dimension {
      assert db.observations[o].Signature() == first.Signature();
    }
    SameDimensions(db, db.defects[id].observations, DimensionAt(db, id));
  }

  lemma {:induction false} SameDimensions(db: Db, observations: seq<Id>, dimension: Id)
    requires observations != []
    requires forall o | o in observations :: o in db.observations && DimensionOf(db.observations[o]) == dimension
    ensures Dimensions(db, observations) == [dimension]
  {
    var front := observations[..|observations| - 1];
    if front != [] {
      SameDimensions(db, front, dimension);
    }
  }

  // --------------------------------------------------------------------- the invariant

  ghost predicate Distinct<T(!new)>(s: seq<T>) {
    forall i, j :: 0 <= i < j < |s| ==> s[i] != s[j]
  }

  ghost predicate DefectCovered(db: Db, id: Id)
    requires id in db.defects
  {
    && Distinct(db.defects[id].layers)
    && (db.defects[id].mode.AutoConfirmed? && FirstSeen(db, id).Some? ==> !Sensitive(FirstSeen(db, id).value.dimension))
  }

  ghost predicate RowCovered(db: Db, row: Obligation) {
    && row.defect in db.defects && Required(db.defects[row.defect], row.layer)
    && row.dimension == DimensionAt(db, row.defect)
  }

  /** No layer is listed twice, sensitive defects are left to humans, every obligation is one its defect needs. */
  ghost predicate Covered(db: Db) {
    && (forall d | d in db.defects :: DefectCovered(db, d))
    && (forall k | k in db.obligations :: RowCovered(db, db.obligations[k]))
  }

  /** What the operations add to the guards. */
  ghost predicate Fits(db: Db, w: Write) {
    match w
    case DefectOpened(id, d) => DefectCovered(Apply(db, w), id)
    case ObligationInserted(_, ob) => RowCovered(db, ob)
    case _ => true
  }

  ghost predicate AllFit(db: Db, writes: seq<Write>) {
    writes == [] || (AllFit(db, writes[..|writes| - 1])
      && Fits(Replay(db, writes[..|writes| - 1]), writes[|writes| - 1]))
  }

  /** What every commit leaves of a defect's beginnings. */
  ghost predicate Grows(db: Db, r: Db, id: Id) {
    && id in db.defects && id in r.defects && FirstSeen(r, id) == FirstSeen(db, id)
    && r.defects[id].mode == db.defects[id].mode && r.defects[id].first == db.defects[id].first
    && db.defects[id].layers <= r.defects[id].layers
    && (Distinct(db.defects[id].layers) ==> Distinct(r.defects[id].layers))
  }

  lemma {:induction false} MergeGrows(db: Db, id: Id, source: Id)
    requires id in db.defects && source in db.observations && db.defects[id].observations != []
    ensures Grows(db, Apply(db, ObservationMerged(id, source)), id)
  {
    var layer := db.observations[source].layer;
    assert db.defects[id].layers <= WithLayer(db.defects[id].layers, layer);
    assert WithObservation(db.defects[id].observations, source)[0] == db.defects[id].observations[0];
  }

  lemma {:induction false} WriteGrows(db: Db, w: Write, id: Id)
    requires Indexed(db) && Legal(db, w) && id in db.defects
    ensures Grows(db, Apply(db, w), id)
  {
    assert DefectIndexed(db, db.defects[id]);
    if w.ObservationMerged? && w.id == id {
      MergeGrows(db, id, w.source);
    } else if w.ObservationRecorded? {
      assert db.defects[id].observations[0] in db.defects[id].observations;
    } else {
      SameBeginnings(db, w, id);
    }
  }

  lemma {:induction false} SameBeginnings(db: Db, w: Write, id: Id)
    requires id in db.defects && !w.ObservationRecorded?
    requires (w.ObservationMerged? || w.DefectOpened?) ==> w.id != id
    ensures Grows(db, Apply(db, w), id)
  {
  }

  lemma {:induction false} StillRequired(db: Db, r: Db, row: Obligation)
    requires RowCovered(db, row) && Grows(db, r, row.defect)
    ensures RowCovered(r, row)
  {
  }

  lemma {:induction false} RowKept(db: Db, w: Write, k: Id)
    requires Covered(db) && Fits(db, w) && k in Apply(db, w).obligations
    ensures RowCovered(db, Apply(db, w).obligations[k])
  {
  }

  lemma {:induction false} WriteKeepsCovered(db: Db, w: Write)
    requires Indexed(db) && Covered(db) && Legal(db, w) && Fits(db, w)
    ensures Covered(Apply(db, w))
  {
    var r := Apply(db, w);
    forall d | d in r.defects ensures DefectCovered(r, d) {
      if d in db.defects {
        WriteGrows(db, w, d);
        assert DefectCovered(db, d);
      }
    }
    forall k | k in r.obligations ensures RowCovered(r, r.obligations[k]) {
      RowKept(db, w, k);
      WriteGrows(db, w, r.obligations[k].defect);
      StillRequired(db, r, r.obligations[k]);
    }
  }

  lemma {:induction false} WritesKeepCovered(db: Db, writes: seq<Write>)
    requires Indexed(db) && Covered(db) && AllLegal(db, writes) && AllFit(db, writes)
    ensures Covered(Replay(db, writes))
  {
    if writes != [] {
      var front := writes[..|writes| - 1];
      WritesKeepCovered(db, front);
      WritesKeepIndex(db, front);
      WriteKeepsCovered(Replay(db, front), writes[|writes| - 1]);
    }
  }

  // ------------------------------------------------------------------ every plan fits

  lemma {:induction false} FitAppend(db: Db, first: seq<Write>, second: seq<Write>)
    requires AllFit(db, first) && AllFit(Replay(db, first), second)
    ensures AllFit(db, first + second)
  {
    if second == [] {
      assert first + second == first;
    } else {
      var front := second[..|second| - 1];
      FitAppend(db, first, front);
      ReplayAppend(db, first, front);
      assert (first + second)[..|first + second| - 1] == first + front;
    }
  }

  lemma {:induction false} FitPrefix(db: Db, writes: seq<Write>, k: nat)
    requires AllFit(db, writes) && k <= |writes|
    ensures AllFit(db, writes[..k])
    decreases |writes|
  {
    if k < |writes| {
      assert writes[..|writes| - 1][..k] == writes[..k];
      FitPrefix(db, writes[..|writes| - 1], k);
    } else {
      assert writes[..k] == writes;
    }
  }

  predicate Plain(w: Write) {
    !w.DefectOpened? && !w.ObligationInserted?
  }

  lemma {:induction false} PlainFits(db: Db, writes: seq<Write>)
    requires forall w | w in writes :: Plain(w)
    ensures AllFit(db, writes)
  {
    if writes != [] {
      PlainFits(db, writes[..|writes| - 1]);
      assert Plain(writes[|writes| - 1]);
    }
  }

  lemma {:induction false} SameRow(db: Db, r: Db, row: Obligation)
    requires RowCovered(db, row) && r.defects == db.defects && r.observations == db.observations
    ensures RowCovered(r, row)
  {
  }

  lemma {:induction false} InsertsFit(db: Db, writes: seq<Write>)
    requires forall w | w in writes :: w.ObligationInserted? && RowCovered(db, w.obligation)
    ensures AllFit(db, writes)
    ensures Replay(db, writes).defects == db.defects && Replay(db, writes).observations == db.observations
  {
    if writes != [] {
      var last := writes[|writes| - 1];
      InsertsFit(db, writes[..|writes| - 1]);
      assert last in writes;
      SameRow(db, Replay(db, writes[..|writes| - 1]), last.obligation);
    }
  }

  /** The insertion for one layer. */
  function RowFor(id: Id, layer: Id, dimension: Id): (w: Write) {
    ObligationInserted(ObligationId(id, layer, dimension), Obligation(id, layer, dimension, Pending))
  }

  lemma {:induction false} OneRowPerLayer(id: Id, layers: seq<Id>, dimension: Id)
    ensures |ForLayers(id, layers, [dimension])| == |layers|
    ensures forall i :: 0 <= i < |layers| ==> ForLayers(id, layers, [dimension])[i] == RowFor(id, layers[i], dimension)
  {
    if layers != [] {
      OneRowPerLayer(id, layers[..|layers| - 1], dimension);
    }
  }

  /** The obligations a fix inserts: one for each required layer. */
  lemma {:induction false} WritesAreRows(db: Db, id: Id)
    requires Indexed(db) && id in db.defects
    ensures var layers, writes := RequiredLayers(db.defects[id]), ObligationWrites(db, id);
      |writes| == |layers| && forall i :: 0 <= i < |layers| ==> writes[i] == RowFor(id, layers[i], DimensionAt(db, id))
  {
    SingleDimension(db, id);
    OneRowPerLayer(id, RequiredLayers(db.defects[id]), DimensionAt(db, id));
  }

  lemma {:induction false} ObligationsFit(db: Db, id: Id)
    requires Indexed(db) && id in db.defects
    ensures AllFit(db, ObligationWrites(db, id))
  {
    WritesAreRows(db, id);
    InsertsFit(db, ObligationWrites(db, id));
  }

  lemma {:induction false} RegisterFits(db: Db, id: Id, deployment: Option<Id>)
    requires Indexed(db)
    ensures AllFit(db, RegisterFix(db, id, deployment).writes)
  {
    if RegisterFix(db, id, deployment).writes != [] {
      var fix := FixRegistered(id, deployment);
      PlainFits(db, [fix]);
      ReplayOne(db, fix);
      if Given(deployment) {
        WriteKeepsIndex(db, fix);
        ObligationsFit(Apply(db, fix), id);
        FitAppend(db, [fix], ObligationWrites(Apply(db, fix), id));
      }
    }
  }

  /** A retest is some insertions and the marks that follow them. */
  lemma {:induction false} DispatchParts(db: Db, id: Id) returns (inserts: seq<Write>, keys: seq<Id>)
    requires DispatchRetest(db, id).writes != []
    ensures id in db.defects && (inserts == [] || inserts == ObligationWrites(db, id))
    ensures DispatchRetest(db, id).writes == inserts + (DispatchAll(keys) + [RetestStarted(id)])
  {
    inserts := if ObligationsOf(db, id) == [] then ObligationWrites(db, id) else [];
    keys := if ObligationsOf(db, id) == [] then InsertedKeys(inserts) else ObligationsOf(db, id);
  }

  lemma {:induction false} DispatchFits(db: Db, id: Id)
    requires Indexed(db)
    ensures AllFit(db, DispatchRetest(db, id).writes)
  {
    if DispatchRetest(db, id).writes != [] {
      var inserts, keys := DispatchParts(db, id);
      PartsFit(db, id, inserts, DispatchAll(keys) + [RetestStarted(id)]);
    }
  }

  lemma {:induction false} PartsFit(db: Db, id: Id, inserts: seq<Write>, marks: seq<Write>)
    requires Indexed(db) && id in db.defects && (inserts == [] || inserts == ObligationWrites(db, id))
    requires forall w | w in marks :: Plain(w)
    ensures AllFit(db, inserts + marks)
  {
    ObligationsFit(db, id);
    PlainFits(Replay(db, inserts), marks);
    FitAppend(db, inserts, marks);
  }

  lemma {:induction false} CorrelateFits(db: Db, diagnosis: Id, newId: Id, severity: Id, actor: Id, pick: Id)
    requires Indexed(db)
    ensures AllFit(db, Correlate(db, diagnosis, newId, severity, actor, pick).writes)
  {
    var writes := Correlate(db, diagnosis, newId, severity, actor, pick).writes;
    if writes != [] {
      assert writes == [writes[0]];
      if writes[0].DefectOpened? {
        OpenedFits(db, newId, writes[0].defect, db.diagnoses[diagnosis].observation);
      }
      FitOne(db, writes[0]);
    }
  }

  lemma {:induction false} FitOne(db: Db, w: Write)
    requires Fits(db, w)
    ensures AllFit(db, [w])
  {
    assert [w][..0] == [] && Replay(db, []) == db;
  }

  lemma {:induction false} OpenedFits(db: Db, id: Id, d: Defect, source: Id)
    requires source in db.observations && d.observations == [source] && |d.layers| <= 1
    requires d.mode.AutoConfirmed? ==> !Sensitive(db.observations[source].dimension)
    ensures Fits(db, DefectOpened(id, d))
  {
  }

  lemma {:induction false} PlanFits(db: Db, op: Operation)
    requires Indexed(db)
    ensures AllFit(db, PlanOf(db, op).writes)
  {
    match op
    case OpCorrelate(diagnosis, newId, severity, actor, pick) => CorrelateFits(db, diagnosis, newId, severity, actor,
      pick);
    case OpRegisterFix(id, deployment) => RegisterFits(db, id, deployment);
    case OpDispatch(id) => DispatchFits(db, id);
    case _ => PlainFits(db, PlanOf(db, op).writes);
  }

  lemma {:induction false} StepKeepsCovered(db: Db, step: Step)
    requires Indexed(db) && Covered(db)
    ensures Covered(After(db, step))
  {
    var writes := PlanOf(db, step.op).writes;
    StepLegal(db, step);
    PlanFits(db, step.op);
    if step.survives < |writes| {
      FitPrefix(db, writes, step.survives);
    }
    WritesKeepCovered(db, Take(writes, step.survives));
  }

  lemma {:induction false} RunCovered(steps: seq<Step>)
    ensures Covered(Run(steps))
  {
    if steps == [] {
      assert Run(steps) == EMPTY;
    } else {
      var front, last := steps[..|steps| - 1], steps[|steps| - 1];
      RunCovered(front);
      RunIndexed(front);
      StepKeepsCovered(Run(front), last);
      assert steps == front + [last];
      RunStep(front, last);
    }
  }

  /** The machine never confirms a defect with an observation of a sensitive dimension, merged ones included. */
  lemma {:induction false} AutomaticIsHarmless(steps: seq<Step>, id: Id, o: Id)
    requires id in Run(steps).defects && Run(steps).defects[id].mode.AutoConfirmed?
    requires o in Run(steps).defects[id].observations
    ensures o in Run(steps).observations && !Sensitive(Run(steps).observations[o].dimension)
  {
    RunIndexed(steps);
    RunCovered(steps);
    SingleDimension(Run(steps), id);
    assert DefectCovered(Run(steps), id);
  }
  // ------------------------------------------------------------------- coverage of a fix

  lemma {:induction false} Regrouped(d: Id, l: Id, m: Id)
    ensures "VO-" + d + "-" + l + "-" + m == ("VO-" + d) + ("-" + (l + "-" + m))
  {
  }

  lemma {:induction false} SameDefect(a: Obligation, b: Obligation)
    requires |a.defect| == |b.defect| && KeyOf(a) == KeyOf(b)
    ensures a.defect == b.defect
  {
    Regrouped(a.defect, a.layer, a.dimension);
    Regrouped(b.defect, b.layer, b.dimension);
    var p, q := "VO-" + a.defect, "VO-" + b.defect;
    assert KeyOf(a)[..|p|] == p && KeyOf(b)[..|q|] == q;
    assert p[3..] == a.defect && q[3..] == b.defect;
  }

  lemma {:induction false} SameMiddle(head: Id, x: Id, y: Id, tail: Id)
    requires head + x + tail == head + y + tail
    ensures x == y
  {
    assert (head + x + tail)[|head|..|head| + |x|] == x;
    assert (head + y + tail)[|head|..|head| + |y|] == y;
  }

  /** With one dimension the keys of a defect tell its layers apart, whatever they contain. */
  lemma {:induction false} KeysOfLayers(id: Id, la: Id, lb: Id, dimension: Id)
    ensures ObligationId(id, la, dimension) == ObligationId(id, lb, dimension) <==> la == lb
  {
    var head, tail := "VO-" + id + "-", "-" + dimension;
    assert ObligationId(id, la, dimension) == head + la + tail;
    assert ObligationId(id, lb, dimension) == head + lb + tail;
    if ObligationId(id, la, dimension) == ObligationId(id, lb, dimension) {
      SameMiddle(head, la, lb, tail);
    }
  }

  /** Defect ids as their generator makes them. */
  predicate IdsOfOneLength(db: Db) {
    forall d, e | d in db.defects && e in db.defects :: |d| == |e|
  }

  /** Under the key of a layer stands the obligation of this defect, layer and dimension. */
  lemma {:induction false} RowUnderKey(db: Db, id: Id, layer: Id)
    requires Indexed(db) && Covered(db) && IdsOfOneLength(db) && id in db.defects
    requires ObligationId(id, layer, DimensionAt(db, id)) in db.obligations
    ensures var row := db.obligations[ObligationId(id, layer, DimensionAt(db, id))];
      row == Obligation(id, layer, DimensionAt(db, id), row.status)
  {
    var row := db.obligations[ObligationId(id, layer, DimensionAt(db, id))];
    SameDefect(row, Obligation(id, layer, DimensionAt(db, id), row.status));
    assert RowCovered(db, row);
    KeysOfLayers(id, row.layer, layer, DimensionAt(db, id));
  }

  lemma {:induction false} InsertedRow(db: Db, inserts: seq<Write>, i: nat)
    requires i < |inserts| && forall w | w in inserts :: w.ObligationInserted?
    ensures inserts[i].key in Replay(db, inserts).obligations
  {
    var front, last := inserts[..|inserts| - 1], inserts[|inserts| - 1];
    assert last in inserts;
    if i < |front| {
      assert inserts[i] == front[i];
      InsertedRow(db, front, i);
      if inserts[i].key in Replay(db, front).obligations {
        ObligationKept(Replay(db, front), last, inserts[i].key);
      }
    }
  }

  /** The key of every required layer is on record after the insertions. */
  lemma {:induction false} LayerInserted(db: Db, id: Id, layer: Id)
    requires Indexed(db) && id in db.defects && Required(db.defects[id], layer)
    ensures ObligationId(id, layer, DimensionAt(db, id)) in Replay(db, ObligationWrites(db, id)).obligations
  {
    var layers := RequiredLayers(db.defects[id]);
    WritesAreRows(db, id);
    var i :| 0 <= i < |layers| && layers[i] == layer;
    InsertedRow(db, ObligationWrites(db, id), i);
  }

  /** Insertions add rows and change nothing else. */
  ghost predicate OnlyAdded(db: Db, r: Db) {
    && r == db.(obligations := r.obligations, keys := r.keys)
    && forall k | k in db.obligations :: k in r.obligations && r.obligations[k] == db.obligations[k]
  }

  lemma {:induction false} InsertsAdd(db: Db, id: Id)
    requires id in db.defects && db.defects[id].status.ReadyForRetest?
    ensures OnlyAdded(db, Replay(db, ObligationWrites(db, id)))
  {
    ForLayersInsert(id, RequiredLayers(db.defects[id]), Dimensions(db, db.defects[id].observations));
    InsertsLegal(db, id, ObligationWrites(db, id));
  }

  /** A deployed fix is its registration followed by the insertions. */
  lemma {:induction false} FixIs(db: Db, id: Id, deployment: Option<Id>)
    requires Given(deployment) && RegisterFix(db, id, deployment).outcome.Done?
    ensures var mid := Apply(db, FixRegistered(id, deployment));
      && id in db.defects && mid == db.(defects := db.defects[id := mid.defects[id]])
      && mid.defects[id] == db.defects[id].(status := ReadyForRetest, deployment := deployment)
      && RegisterFix(db, id, deployment).writes == [FixRegistered(id, deployment)] + ObligationWrites(mid, id)
      && Replay(db, RegisterFix(db, id, deployment).writes) == Replay(mid, ObligationWrites(mid, id))
  {
    var fix := FixRegistered(id, deployment);
    ReplayAppend(db, [fix], ObligationWrites(Apply(db, fix), id));
    ReplayOne(db, fix);
  }

  lemma {:induction false} FixKeepsCovered(db: Db, id: Id, deployment: Option<Id>)
    requires Indexed(db) && Covered(db)
    ensures var r := Replay(db, RegisterFix(db, id, deployment).writes); Indexed(r) && Covered(r)
  {
    var writes := RegisterFix(db, id, deployment).writes;
    RegisterLegal(db, id, deployment);
    RegisterFits(db, id, deployment);
    WritesKeepIndex(db, writes);
    WritesKeepCovered(db, writes);
  }

  predicate OnRecord(db: Db, id: Id, layer: Id) {
    ObligationId(id, layer, DimensionAt(db, id)) in db.obligations
  }

  /** Under the key of the layer stands the obligation of this defect and layer. */
  predicate HasRow(db: Db, id: Id, layer: Id) {
    && OnRecord(db, id, layer)
    && var row := db.obligations[ObligationId(id, layer, DimensionAt(db, id))];
       row == Obligation(id, layer, DimensionAt(db, id), row.status)
  }

  /** The obligation is that of a layer its defect needs, under the key of that layer. */
  predicate Needed(db: Db, k: Id)
    requires k in db.obligations
  {
    var row := db.obligations[k];
    && row.defect in db.defects && Required(db.defects[row.defect], row.layer)
    && k == ObligationId(row.defect, row.layer, DimensionAt(db, row.defect))
  }

  /** The defect has exactly one obligation for each layer it needs, and none for any other. */
  ghost predicate ExactlyCovered(db: Db, id: Id) {
    && id in db.defects
    && (forall layer | Required(db.defects[id], layer) :: HasRow(db, id, layer))
    && (forall k | k in db.obligations && db.obligations[k].defect == id :: Needed(db, k))
  }

  lemma {:induction false} RowIsNeeded(db: Db, k: Id)
    requires Indexed(db) && Covered(db) && k in db.obligations
    ensures Needed(db, k)
  {
    assert RowCovered(db, db.obligations[k]);
  }

  lemma {:induction false} KeysCover(db: Db, id: Id)
    requires Indexed(db) && Covered(db) && IdsOfOneLength(db) && id in db.defects
    requires forall layer | Required(db.defects[id], layer) :: OnRecord(db, id, layer)
    ensures ExactlyCovered(db, id)
  {
    forall layer | Required(db.defects[id], layer) ensures HasRow(db, id, layer) {
      RowUnderKey(db, id, layer);
    }
    forall k | k in db.obligations && db.obligations[k].defect == id ensures Needed(db, k) {
      RowIsNeeded(db, k);
    }
  }

  /**
   A deployed fix leaves exactly one obligation of the defect for every required layer, in the
   one dimension it was observed in, and none for any other layer. It touches no obligation that
   was there before: results recorded for an earlier fix stay.
   */
  lemma {:induction false} FixCovers(db: Db, id: Id, deployment: Option<Id>)
    requires Indexed(db) && Covered(db) && IdsOfOneLength(db)
    requires Given(deployment) && RegisterFix(db, id, deployment).outcome.Done?
    ensures var r := Replay(db, RegisterFix(db, id, deployment).writes);
      && ExactlyCovered(r, id)
      && r.defects == db.defects[id := db.defects[id].(status := ReadyForRetest, deployment := deployment)]
      && forall k | k in db.obligations :: k in r.obligations && r.obligations[k] == db.obligations[k]
  {
    var r := Replay(db, RegisterFix(db, id, deployment).writes);
    FixAdds(db, id, deployment, r);
    FixKeepsCovered(db, id, deployment);
    CoverAfter(db, id, r.defects[id], r);
  }

  lemma {:induction false} CoverAfter(db: Db, id: Id, d: Defect, r: Db)
    requires IdsOfOneLength(db) && id in db.defects && r.defects == db.defects[id := d]
    requires Indexed(r) && Covered(r) && forall layer | Required(d, layer) :: OnRecord(r, id, layer)
    ensures ExactlyCovered(r, id)
  {
    KeysCover(r, id);
  }

  lemma {:induction false} FixAdds(db: Db, id: Id, deployment: Option<Id>, r: Db)
    requires Indexed(db) && Given(deployment) && RegisterFix(db, id, deployment).outcome.Done?
    requires r == Replay(db, RegisterFix(db, id, deployment).writes)
    ensures r.defects == db.defects[id := db.defects[id].(status := ReadyForRetest, deployment := deployment)]
    ensures DimensionAt(r, id) == DimensionAt(db, id)
    ensures forall k | k in db.obligations :: k in r.obligations && r.obligations[k] == db.obligations[k]
    ensures forall layer | Required(r.defects[id], layer) :: OnRecord(r, id, layer)
  {
    var mid := Apply(db, FixRegistered(id, deployment));
    FixIs(db, id, deployment);
    WriteKeepsIndex(db, FixRegistered(id, deployment));
    InsertsAdd(mid, id);
    AddedToFixed(db, id, deployment, mid, r);
    InsertsRecord(mid, id, r);
  }

  lemma {:induction false} AddedToFixed(db: Db, id: Id, deployment: Option<Id>, mid: Db, r: Db)
    requires id in db.defects && id in mid.defects && OnlyAdded(mid, r)
    requires mid == db.(defects := db.defects[id := mid.defects[id]])
    requires mid.defects[id] == db.defects[id].(status := ReadyForRetest, deployment := deployment)
    ensures r.defects == db.defects[id := db.defects[id].(status := ReadyForRetest, deployment := deployment)]
    ensures DimensionAt(r, id) == DimensionAt(db, id)
    ensures forall k | k in db.obligations :: k in r.obligations && r.obligations[k] == db.obligations[k]
  {
  }

  lemma {:induction false} InsertsRecord(db: Db, id: Id, r: Db)
    requires Indexed(db) && id in db.defects && r == Replay(db, ObligationWrites(db, id)) && OnlyAdded(db, r)
    ensures forall layer | Required(r.defects[id], layer) :: OnRecord(r, id, layer)
  {
    forall layer | Required(r.defects[id], layer) ensures OnRecord(r, id, layer) {
      LayerInserted(db, id, layer);
    }
  }
  /** The write attaches an observation of a layer the defect did not need so far. */
  predicate WidensTo(db: Db, w: Write, id: Id) {
    && w.ObservationMerged? && w.id == id && id in db.defects && w.source in db.observations
    && Given(db.observations[w.source].layer) && !Required(db.defects[id], db.observations[w.source].layer.value)
  }

  lemma {:induction false} RequiredBefore(db: Db, w: Write, id: Id, layer: Id)
    requires Legal(db, w) && id in db.defects && id in Apply(db, w).defects && Required(Apply(db, w).defects[id], layer)
    requires !WidensTo(db, w, id)
    ensures Required(db.defects[id], layer)
  {
    if !w.ObservationMerged? {
      if StatusOnly(w) {
        StatusFrame(db, w);
      }
    }
  }

  lemma {:induction false} StillOnRecord(db: Db, w: Write, id: Id, layer: Id)
    requires Grows(db, Apply(db, w), id) && OnRecord(db, id, layer)
    ensures OnRecord(Apply(db, w), id, layer)
  {
    ObligationKept(db, w, ObligationId(id, layer, DimensionAt(db, id)));
  }

  lemma {:induction false} RecordedIsRequired(db: Db, id: Id, layer: Id)
    requires Indexed(db) && Covered(db) && IdsOfOneLength(db) && id in db.defects && OnRecord(db, id, layer)
    ensures Required(db.defects[id], layer)
  {
    RowUnderKey(db, id, layer);
    RowIsNeeded(db, ObligationId(id, layer, DimensionAt(db, id)));
  }

  lemma {:induction false} WidenedIsBare(db: Db, w: Write, id: Id)
    requires Indexed(db) && Covered(db) && IdsOfOneLength(db) && WidensTo(db, w, id) && Grows(db, Apply(db, w), id)
    ensures !ExactlyCovered(Apply(db, w), id)
  {
    var layer := db.observations[w.source].layer.value;
    assert Required(Apply(db, w).defects[id], layer);
    if OnRecord(db, id, layer) {
      RecordedIsRequired(db, id, layer);
    }
  }

  /**
   Once complete, the coverage of a defect is lost exactly by an observation that is merged into it
   and brings a layer it did not need before.
   */
  lemma {:induction false} CoverageLostBy(db: Db, w: Write, id: Id)
    requires Indexed(db) && Covered(db) && Legal(db, w) && Fits(db, w) && ExactlyCovered(db, id)
    requires IdsOfOneLength(db) && IdsOfOneLength(Apply(db, w))
    ensures ExactlyCovered(Apply(db, w), id) <==> !WidensTo(db, w, id)
  {
    var r := Apply(db, w);
    WriteGrows(db, w, id);
    if WidensTo(db, w, id) {
      WidenedIsBare(db, w, id);
    } else {
      forall layer | Required(r.defects[id], layer) ensures OnRecord(r, id, layer) {
        RequiredBefore(db, w, id, layer);
        assert HasRow(db, id, layer);
        StillOnRecord(db, w, id, layer);
      }
      WriteKeepsIndex(db, w);
      WriteKeepsCovered(db, w);
      KeysCover(r, id);
    }
  }

  // --------------------------------------------------------- an interrupted creation

  lemma {:induction false} SubsequenceDistinct(d: Defect, candidates: seq<Id>)
    requires Distinct(candidates)
    ensures Distinct(RequiredOf(d, candidates)) && Distinct(Unranked(candidates))
  {
    if candidates != [] {
      assert forall i :: 0 <= i < |candidates| - 1 ==> candidates[1..][i] == candidates[i + 1];
      SubsequenceDistinct(d, candidates[1..]);
    }
  }

  lemma {:induction false} JoinedDistinct(a: seq<Id>, b: seq<Id>)
    requires Distinct(a) && Distinct(b) && forall x | x in a :: x !in b
    ensures Distinct(a + b)
  {
    forall i, j | 0 <= i < j < |a + b| ensures (a + b)[i] != (a + b)[j] {
      if i < |a| <= j {
        assert (a + b)[i] in a && (a + b)[j] in b;
      }
    }
  }

  /** The layers a defect needs are listed once each. */
  lemma {:induction false} RequiredDistinct(d: Defect)
    requires Distinct(d.layers)
    ensures Distinct(RequiredLayers(d))
  {
    var extra := if Given(d.first) && d.first.value !in d.layers then [d.first.value] else [];
    JoinedDistinct(d.layers, extra);
    SubsequenceDistinct(d, LAYERS);
    SubsequenceDistinct(d, d.layers + extra);
    JoinedDistinct(RequiredOf(d, LAYERS), Unranked(d.layers + extra));
  }

  lemma {:induction false} InsertedKeysOf(inserts: seq<Write>, n: nat, key: Id)
    requires n <= |inserts| && forall i :: 0 <= i < |inserts| ==> inserts[i].ObligationInserted?
    ensures key in InsertedKeys(inserts[..n]) <==> exists i :: 0 <= i < n && inserts[i].key == key
  {
    if n > 0 {
      assert inserts[..n][..n - 1] == inserts[..n - 1];
      InsertedKeysOf(inserts, n - 1, key);
    }
  }

  /** A dispatch inserts only if the defect has no obligations, and drops none. */
  lemma {:induction false} DispatchKeys(db: Db, id: Id, key: Id)
    requires DispatchRetest(db, id).outcome.Done?
    ensures key in Replay(db, DispatchRetest(db, id).writes).obligations <==>
              key in db.obligations
              || (ObligationsOf(db, id) == [] && key in InsertedKeys(ObligationWrites(db, id)))
  {
    var inserts := if ObligationsOf(db, id) == [] then ObligationWrites(db, id) else [];
    var keys := if ObligationsOf(db, id) == [] then InsertedKeys(inserts) else ObligationsOf(db, id);
    ForLayersInsert(id, RequiredLayers(db.defects[id]), Dimensions(db, db.defects[id].observations));
    InsertsLegal(db, id, inserts);
    DispatchingKeeps(db, id, inserts, keys);
  }

  /** Marking and starting leave the set of obligations alone. */
  lemma {:induction false} DispatchingKeeps(db: Db, id: Id, inserts: seq<Write>, keys: seq<Id>)
    ensures Replay(db, inserts + (DispatchAll(keys) + [RetestStarted(id)])).obligations.Keys ==
        Replay(db, inserts).obligations.Keys
  {
    var mid := Replay(db, inserts);
    DispatchAllLegal(mid, keys);
    ReplayAppend(db, inserts, DispatchAll(keys) + [RetestStarted(id)]);
    ReplayAppend(mid, DispatchAll(keys), [RetestStarted(id)]);
    ReplayOne(Replay(mid, DispatchAll(keys)), RetestStarted(id));
  }

  lemma {:induction false} CutAfterFix(db: Db, fix: Write, inserts: seq<Write>, k: nat)
    requires 0 < k <= |[fix] + inserts|
    ensures Replay(db, ([fix] + inserts)[..k]) == Replay(Apply(db, fix), inserts[..k - 1])
  {
    assert ([fix] + inserts)[..k] == [fix] + inserts[..k - 1];
    ReplayAppend(db, [fix], inserts[..k - 1]);
    ReplayOne(db, fix);
  }

  lemma {:induction false} ListedObligation(db: Db, id: Id)
    requires ObligationsOf(db, id) != []
    ensures HasObligation(db, id)
  {
    assert ObligationsOf(db, id)[0] in ObligationsOf(db, id);
  }

  /** The first insertion under a free key is there in the end, and listed. */
  lemma {:induction false} FirstInserted(db: Db, inserts: seq<Write>, id: Id)
    requires inserts != [] && InsertsFor(inserts, id) && inserts[0].key !in db.obligations
    ensures var r := Replay(db, inserts); var k := inserts[0].key;
      k in r.obligations && r.obligations[k].defect == id && k in r.keys
  {
    if |inserts| == 1 {
      assert inserts == [inserts[0]];
      ReplayOne(db, inserts[0]);
    } else {
      FirstInserted(db, inserts[..|inserts| - 1], id);
    }
  }

  /** Among defect ids of one length no other defect uses the keys of this one. */
  lemma {:induction false} KeysAreFree(db: Db, id: Id, layer: Id)
    requires Indexed(db) && IdsOfOneLength(db) && id in db.defects && !HasObligation(db, id)
    ensures !OnRecord(db, id, layer)
  {
    if OnRecord(db, id, layer) {
      var row := db.obligations[ObligationId(id, layer, DimensionAt(db, id))];
      SameDefect(row, Obligation(id, layer, DimensionAt(db, id), row.status));
    }
  }

  /** The insertions for these layers. */
  predicate RowsFor(writes: seq<Write>, id: Id, layers: seq<Id>, dimension: Id) {
    |writes| == |layers| && forall i :: 0 <= i < |layers| ==> writes[i] == RowFor(id, layers[i], dimension)
  }

  lemma {:induction false} KeyIsAmong(writes: seq<Write>, id: Id, layers: seq<Id>, dimension: Id, n: nat, i: nat)
    requires RowsFor(writes, id, layers, dimension) && Distinct(layers) && n <= |writes| && i < |layers|
    ensures ObligationId(id, layers[i], dimension) in InsertedKeys(writes[..n]) <==> i < n
  {
    var key := ObligationId(id, layers[i], dimension);
    InsertedKeysOf(writes, n, key);
    if i < n {
      assert writes[i].key == key;
    } else if key in InsertedKeys(writes[..n]) {
      var j :| 0 <= j < n && writes[j].key == key;
      KeysOfLayers(id, layers[j], layers[i], dimension);
    }
  }

  lemma {:induction false} RowsInsert(writes: seq<Write>, id: Id, layers: seq<Id>, dimension: Id, n: nat)
    requires RowsFor(writes, id, layers, dimension) && n <= |writes|
    ensures InsertsFor(writes[..n], id)
  {
  }

  /** A defect that is ready for its retest and has no obligations yet, with the insertions it needs. */
  ghost predicate Starting(db: Db, id: Id, writes: seq<Write>) {
    && Indexed(db) && IdsOfOneLength(db) && id in db.defects && !HasObligation(db, id)
    && db.defects[id].status.ReadyForRetest? && Distinct(RequiredLayers(db.defects[id]))
    && writes == ObligationWrites(db, id) && RowsFor(writes, id, RequiredLayers(db.defects[id]), DimensionAt(db, id))
  }

  lemma {:induction false} NoneUntilFirst(db: Db, id: Id, writes: seq<Write>, n: nat)
    requires Starting(db, id, writes) && n <= |writes|
    ensures ObligationsOf(Replay(db, writes[..n]), id) == [] <==> n == 0
  {
    if n == 0 {
      assert Replay(db, writes[..0]) == db;
      if ObligationsOf(db, id) != [] {
        ListedObligation(db, id);
      }
    } else {
      RowsInsert(writes, id, RequiredLayers(db.defects[id]), DimensionAt(db, id), n);
      KeysAreFree(db, id, RequiredLayers(db.defects[id])[0]);
      FirstInserted(db, writes[..n], id);
      assert writes[0].key in ObligationsOf(Replay(db, writes[..n]), id);
    }
  }

  lemma {:induction false} CutDispatches(db: Db, id: Id, writes: seq<Write>, n: nat)
    requires Starting(db, id, writes) && n <= |writes|
    ensures DispatchRetest(Replay(db, writes[..n]), id).outcome.Done?
    ensures n == 0 ==> ObligationWrites(Replay(db, writes[..n]), id) == writes
  {
    RowsInsert(writes, id, RequiredLayers(db.defects[id]), DimensionAt(db, id), n);
    InsertsLegal(db, id, writes[..n]);
    assert Replay(db, writes[..0]) == db;
  }

  /** The key of the i-th insertion after the dispatch that follows n of them. */
  lemma {:induction false} DispatchedSoFar(db: Db, id: Id, writes: seq<Write>, n: nat, i: nat, key: Id)
    requires Starting(db, id, writes) && n <= |writes| && i < |writes|
    requires key == ObligationId(id, RequiredLayers(db.defects[id])[i], DimensionAt(db, id))
    ensures var r := Replay(db, writes[..n]);
      && DispatchRetest(r, id).outcome.Done?
      && (key in Replay(r, DispatchRetest(r, id).writes).obligations <==> n == 0 || i < n)
  {
    CutDispatches(db, id, writes, n);
    CutKeys(db, id, writes, n, i, key);
    NoneUntilFirst(db, id, writes, n);
    DispatchKeys(Replay(db, writes[..n]), id, key);
  }

  lemma {:induction false} CutKeys(db: Db, id: Id, writes: seq<Write>, n: nat, i: nat, key: Id)
    requires Starting(db, id, writes) && n <= |writes| && i < |writes|
    requires key == ObligationId(id, RequiredLayers(db.defects[id])[i], DimensionAt(db, id))
    ensures key in Replay(db, writes[..n]).obligations <==> i < n
    ensures key in InsertedKeys(writes)
  {
    KeysAreFree(db, id, RequiredLayers(db.defects[id])[i]);
    CutKeysOf(db, id, writes, RequiredLayers(db.defects[id]), DimensionAt(db, id), n, i, key);
  }

  lemma {:induction false} CutKeysOf(db: Db, id: Id, writes: seq<Write>, layers: seq<Id>, dimension: Id, n: nat,
      i: nat, key: Id)
    requires RowsFor(writes, id, layers, dimension) && Distinct(layers) && n <= |writes| && i < |writes|
    requires key == ObligationId(id, layers[i], dimension) && key !in db.obligations
    requires id in db.defects && db.defects[id].status.ReadyForRetest?
    ensures key in Replay(db, writes[..n]).obligations <==> i < n
    ensures key in InsertedKeys(writes)
  {
    KeyIsAmong(writes, id, layers, dimension, n, i);
    KeyIsAmong(writes, id, layers, dimension, |writes|, i);
    assert writes[..|writes|] == writes;
    RowsInsert(writes, id, layers, dimension, n);
    AfterInserts(db, id, writes[..n], key);
  }

  lemma {:induction false} AfterInserts(db: Db, id: Id, writes: seq<Write>, key: Id)
    requires id in db.defects && db.defects[id].status.ReadyForRetest? && InsertsFor(writes, id)
        && key !in db.obligations
    ensures key in Replay(db, writes).obligations <==> key in InsertedKeys(writes)
  {
    InsertsLegal(db, id, writes);
  }

  lemma {:induction false} RequiredOfSame(d: Defect, e: Defect, candidates: seq<Id>)
    requires d.layers == e.layers && d.first == e.first
    ensures RequiredOf(d, candidates) == RequiredOf(e, candidates)
  {
    if candidates != [] {
      RequiredOfSame(d, e, candidates[1..]);
      assert Required(d, candidates[0]) == Required(e, candidates[0]);
    }
  }

  lemma {:induction false} RequiredSame(d: Defect, e: Defect)
    requires d.layers == e.layers && d.first == e.first
    ensures RequiredLayers(d) == RequiredLayers(e)
  {
    RequiredOfSame(d, e, LAYERS);
  }

  /** The tables after the registration of the defect's first fix. */
  predicate Registered(db: Db, mid: Db, id: Id) {
    && id in db.defects && id in mid.defects
    && mid == db.(defects := db.defects[id := mid.defects[id]])
    && mid.defects[id] == db.defects[id].(status := ReadyForRetest, deployment := mid.defects[id].deployment)
  }

  lemma {:induction false} RegisteredIs(db: Db, mid: Db, id: Id)
    requires Registered(db, mid, id) && IdsOfOneLength(db) && !HasObligation(db, id)
    ensures IdsOfOneLength(mid) && !HasObligation(mid, id) && DimensionAt(mid, id) == DimensionAt(db, id)
  {
  }

  lemma {:induction false} StartingAfterFix(db: Db, mid: Db, id: Id)
    requires Indexed(mid) && Covered(db) && IdsOfOneLength(db) && !HasObligation(db, id) && Registered(db, mid, id)
    ensures Starting(mid, id, ObligationWrites(mid, id)) && DimensionAt(mid, id) == DimensionAt(db, id)
    ensures RequiredLayers(mid.defects[id]) == RequiredLayers(db.defects[id])
  {
    RegisteredIs(db, mid, id);
    RequiredSame(mid.defects[id], db.defects[id]);
    assert DefectCovered(db, id);
    RequiredDistinct(db.defects[id]);
    WritesAreRows(mid, id);
  }

  /** A deployed fix commits itself and one insertion per layer. */
  lemma {:induction false} FixLength(db: Db, id: Id, deployment: Option<Id>)
    requires Indexed(db) && Given(deployment) && RegisterFix(db, id, deployment).outcome.Done?
    ensures |RegisterFix(db, id, deployment).writes| == |RequiredLayers(db.defects[id])| + 1
  {
    var mid := Apply(db, FixRegistered(id, deployment));
    FixIs(db, id, deployment);
    WriteKeepsIndex(db, FixRegistered(id, deployment));
    WritesAreRows(mid, id);
    RequiredSame(mid.defects[id], db.defects[id]);
  }

  /**
   Dying while the obligations of a defect's first fix are being created, after k commits: the
   next dispatch makes up for it exactly when none of them had been committed; a partial set is
   dispatched as it is. So the i-th layer the defect needs has its obligation after the dispatch if
   and only if k is 1 or the obligation was among the committed ones.
   */
  lemma {:induction false} PartialObligationsStay(db: Db, id: Id, deployment: Option<Id>, k: nat, i: nat)
    requires Indexed(db) && Covered(db) && IdsOfOneLength(db) && !HasObligation(db, id)
    requires Given(deployment) && RegisterFix(db, id, deployment).outcome.Done?
    requires 0 < k <= |RegisterFix(db, id, deployment).writes| && i < |RequiredLayers(db.defects[id])|
    ensures var writes := RegisterFix(db, id, deployment).writes;
      var r := Replay(db, writes[..k]);
      var key := ObligationId(id, RequiredLayers(db.defects[id])[i], DimensionAt(db, id));
      && |writes| == |RequiredLayers(db.defects[id])| + 1 && DispatchRetest(r, id).outcome.Done?
      && (key in Replay(r, DispatchRetest(r, id).writes).obligations <==> k == 1 || i < k - 1)
  {
    FixIs(db, id, deployment);
    WriteKeepsIndex(db, FixRegistered(id, deployment));
    PartialPlan(db, Apply(db, FixRegistered(id, deployment)), id, RegisterFix(db, id, deployment).writes, k, i);
  }

  lemma {:induction false} PartialPlan(db: Db, mid: Db, id: Id, writes: seq<Write>, k: nat, i: nat)
    requires Indexed(mid) && Covered(db) && IdsOfOneLength(db) && !HasObligation(db, id) && Registered(db, mid, id)
    requires writes != [] && mid == Apply(db, writes[0]) && writes == [writes[0]] + ObligationWrites(mid, id)
    requires 0 < k <= |writes| && i < |RequiredLayers(db.defects[id])|
    ensures |writes| == |RequiredLayers(db.defects[id])| + 1
        && DispatchRetest(Replay(db, writes[..k]), id).outcome.Done?
    ensures var r := Replay(db, writes[..k]);
      var key := ObligationId(id, RequiredLayers(db.defects[id])[i], DimensionAt(db, id));
      key in Replay(r, DispatchRetest(r, id).writes).obligations <==> k == 1 || i < k - 1
  {
    StartingAfterFix(db, mid, id);
    CutAfterFix(db, writes[0], ObligationWrites(mid, id), k);
    DispatchedSoFar(mid, id, ObligationWrites(mid, id), k - 1, i,
                    ObligationId(id, RequiredLayers(db.defects[id])[i], DimensionAt(db, id)));
  }
}

/** What every commit of every defect operation keeps. */
module DefectInvariants {
  import opened Prelude
  import opened Defects

  // ------------------------------------------------------------------ the invariant

  /** The attached observations agree, and the detected layers are exactly theirs. */
  ghost predicate DefectIndexed(db: Db, d: Defect) {
    && d.observations != []
    && (forall o | o in d.observations :: o in db.observations)
    && (forall o | o in d.observations ::
          db.observations[o].Signature() == db.observations[d.observations[0]].Signature())
    && (forall l :: l in d.layers ==>
          exists o :: o in d.observations && o in db.observations && db.observations[o].layer == Some(l) && l != "")
    && (forall o | o in d.observations && o in db.observations ::
          Given(db.observations[o].layer) ==> db.observations[o].layer.value in d.layers)
  }

  /** The key an obligation is stored under. */
  function KeyOf(ob: Obligation): (key: Id) {
    ObligationId(ob.defect, ob.layer, ob.dimension)
  }

  ghost predicate Indexed(db: Db) {
    && (forall d | d in db.defects :: d in db.order && DefectIndexed(db, db.defects[d]))
    && (forall k :: k in db.keys <==> k in db.obligations)
    && (forall k | k in db.obligations :: db.obligations[k].defect in db.defects && k == KeyOf(db.obligations[k]))
  }

  predicate HasObligation(db: Db, defect: Id) {
    exists k | k in db.obligations :: db.obligations[k].defect == defect
  }

  // The past, read off the journal

  predicate Confirms(w: Write, defect: Id) {
    (w.DefectOpened? && w.id == defect && w.defect.mode.AutoConfirmed?) ||
    (w.DefectDecided? && w.id == defect && w.decision.Confirm?)
  }

  predicate Deploys(w: Write, defect: Id) {
    w.FixRegistered? && w.id == defect && Given(w.deployment)
  }

  predicate EverConfirmed(journal: seq<Write>, defect: Id) {
    exists i :: 0 <= i < |journal| && Confirms(journal[i], defect)
  }

  predicate EverDeployed(journal: seq<Write>, defect: Id) {
    exists i :: 0 <= i < |journal| && Deploys(journal[i], defect)
  }

  /** The last result of the obligation is a PASS, and no retest was dispatched since. */
  predicate PassedSinceRetest(journal: seq<Write>, key: Id, defect: Id) {
    journal != [] &&
    var last := journal[|journal| - 1];
    if last.ResultRecorded? && last.key == key then last.result.Pass?
    else if last == ObligationDispatched(key) || last == RetestStarted(defect) then false
    else PassedSinceRetest(journal[..|journal| - 1], key, defect)
  }

  ghost predicate DefectHistory(db: Db, journal: seq<Write>, id: Id)
    requires id in db.defects
  {
    var d := db.defects[id];
    && (d.status !in {Triaged, NotADefect, Duplicate} ==> EverConfirmed(journal, id))
    && (d.status in {ReadyForRetest, Retesting} ==> EverDeployed(journal, id))
    && (d.status in {Verified, Reopened, Closed} ==> HasObligation(db, id))
    && (HasObligation(db, id) ==> EverConfirmed(journal, id) && EverDeployed(journal, id))
    && (d.confirmer.None? ==> d.mode.HumanConfirm? && d.status.Triaged? && !HasObligation(db, id))
  }

  ghost predicate History(db: Db, journal: seq<Write>) {
    && (forall d | d in db.defects :: DefectHistory(db, journal, d))
    && (forall k | k in db.obligations && db.obligations[k].status.Pass? ::
          PassedSinceRetest(journal, k, db.obligations[k].defect))
  }

  /** The guard under which each kind of commit is made. */
  ghost predicate Legal(db: Db, w: Write) {
    match w
    case ObservationRecorded(id, _) => id !in db.observations
    case DiagnosisRecorded(_, _) => true
    case DefectOpened(id, d) =>
      && id !in db.defects
      && (exists source, actor, o :: source in db.observations && db.observations[source] == o
            && d == NewDefect(d.mode, source, o, actor)
            && forall e :: !Candidate(db, e, o.Signature()))
    case ObservationMerged(id, source) => source in db.observations
      && Candidate(db, id, db.observations[source].Signature())
    case DefectDecided(id, _, _) => id in db.defects
    case FixRegistered(id, _) => id in db.defects
      && db.defects[id].status in {Confirmed, Assigned, FixInProgress, Reopened}
    case ObligationInserted(key, ob) =>
      key == KeyOf(ob) && ob.defect in db.defects && ob.status.Pending?
        && db.defects[ob.defect].status in {ReadyForRetest, Retesting}
    case ObligationDispatched(_) => true
    case RetestStarted(id) =>
      && id in db.defects && db.defects[id].status in {ReadyForRetest, Retesting}
      && forall k | k in db.obligations && db.obligations[k].defect == id :: db.obligations[k].status.Dispatched?
    case ResultRecorded(_, _) => true
    case ConclusionDrawn(id, _) => id in db.defects && HasObligation(db, id)
    case DefectClosed(id) => id in db.defects && db.defects[id].status.Verified?
  }

  ghost predicate AllLegal(db: Db, writes: seq<Write>) {
    writes == [] || (AllLegal(db, writes[..|writes| - 1])
      && Legal(Replay(db, writes[..|writes| - 1]), writes[|writes| - 1]))
  }

  lemma {:induction false} ReplayAppend(db: Db, first: seq<Write>, second: seq<Write>)
    ensures Replay(db, first + second) == Replay(Replay(db, first), second)
    ensures AllLegal(db, first + second) <==> AllLegal(db, first) && AllLegal(Replay(db, first), second)
  {
    if second == [] {
      assert first + second == first;
    } else {
      var front := second[..|second| - 1];
      ReplayAppend(db, first, front);
      assert (first + second)[..|first + second| - 1] == first + front;
    }
  }

  lemma {:induction false} ReplayOne(db: Db, w: Write)
    ensures Replay(db, [w]) == Apply(db, w)
    ensures AllLegal(db, [w]) <==> Legal(db, w)
  {
    assert [w][..0] == [];
    assert Replay(db, []) == db;
  }

  lemma {:induction false} LegalPrefix(db: Db, writes: seq<Write>, k: nat)
    requires AllLegal(db, writes) && k <= |writes|
    ensures AllLegal(db, writes[..k])
  {
    assert writes[..k] + writes[k..] == writes;
    ReplayAppend(db, writes[..k], writes[k..]);
  }

  // ----------------------------------------------------------------- keeping the index

  lemma {:induction false} MergeKeepsIndex(db: Db, id: Id, source: Id)
    requires Indexed(db) && Legal(db, ObservationMerged(id, source))
    ensures Indexed(Apply(db, ObservationMerged(id, source)))
  {
    var o :| o in db.defects[id].observations && o in db.observations
             && db.observations[o].Signature() == db.observations[source].Signature();
    assert DefectIndexed(db, db.defects[id]);
    MergedIndexed(db, db.defects[id], source);
    var r := Apply(db, ObservationMerged(id, source));
    OneDefectIndexed(db, id, r.defects[id], r);
  }

  lemma {:induction false} OneDefectIndexed(db: Db, id: Id, changed: Defect, r: Db)
    requires Indexed(db) && id in db.defects && DefectIndexed(db, changed)
    requires r == db.(defects := db.defects[id := changed])
    ensures Indexed(r)
  {
    forall d | d in r.defects ensures d in r.order && DefectIndexed(r, r.defects[d]) {
      SameDefectIndexed(db, r, r.defects[d]);
    }
  }

  lemma {:induction false} SameDefectIndexed(db: Db, r: Db, d: Defect)
    requires DefectIndexed(db, d) && r.observations == db.observations
    ensures DefectIndexed(r, d)
  {
  }

  lemma {:induction false} MergedIndexed(db: Db, d: Defect, source: Id)
    requires DefectIndexed(db, d) && source in db.observations
    requires db.observations[source].Signature() == db.observations[d.observations[0]].Signature()
    ensures DefectIndexed(db, d.(observations := WithObservation(d.observations, source),
                                 layers := WithLayer(d.layers, db.observations[source].layer)))
  {
    var r := d.(observations := WithObservation(d.observations, source),
                layers := WithLayer(d.layers, db.observations[source].layer));
    forall l | l in r.layers
      ensures exists o :: o in r.observations && o in db.observations && db.observations[o].layer == Some(l) && l != ""
    {
      if l in d.layers {
        var o :| o in d.observations && o in db.observations && db.observations[o].layer == Some(l) && l != "";
        assert o in r.observations;
      } else {
        assert source in r.observations && db.observations[source].layer == Some(l);
      }
    }
  }

  lemma {:induction false} RecordingKeepsIndex(db: Db, id: Id, o: Observation)
    requires Indexed(db) && id !in db.observations
    ensures Indexed(Apply(db, ObservationRecorded(id, o)))
  {
    var r := Apply(db, ObservationRecorded(id, o));
    forall d | d in r.defects ensures d in r.order && DefectIndexed(r, r.defects[d]) {
      RecordedIndexed(db, r, r.defects[d]);
    }
  }

  lemma {:induction false} RecordedIndexed(db: Db, r: Db, d: Defect)
    requires DefectIndexed(db, d)
    requires forall o | o in db.observations :: o in r.observations && r.observations[o] == db.observations[o]
    ensures DefectIndexed(r, d)
  {
    forall l | l in d.layers
      ensures exists o :: o in d.observations && o in r.observations && r.observations[o].layer == Some(l) && l != ""
    {
      var o :| o in d.observations && o in db.observations && db.observations[o].layer == Some(l) && l != "";
      assert r.observations[o].layer == Some(l);
    }
  }

  lemma {:induction false} OpeningKeepsIndex(db: Db, id: Id, d: Defect)
    requires Indexed(db) && Legal(db, DefectOpened(id, d))
    ensures Indexed(Apply(db, DefectOpened(id, d)))
  {
    var r := Apply(db, DefectOpened(id, d));
    var source, actor, o :| source in db.observations && db.observations[source] == o
        && d == NewDefect(d.mode, source, o, actor);
    assert d.observations[0] == source;
    forall e | e in r.defects ensures e in r.order && DefectIndexed(r, r.defects[e]) {
      if e != id {
        RecordedIndexed(db, r, r.defects[e]);
      }
    }
  }

  /** Writes that leave observations, layers and rows' owners alone. */
  predicate StatusOnly(w: Write) {
    !w.ObservationRecorded? && !w.DefectOpened? && !w.ObservationMerged?
  }

  lemma {:induction false} StatusFrameAt(db: Db, w: Write, d: Id)
    requires StatusOnly(w) && d in db.defects && d in Apply(db, w).defects
    ensures var r := Apply(db, w);
      && r.defects[d].observations == db.defects[d].observations
      && r.defects[d].layers == db.defects[d].layers && r.defects[d].first == db.defects[d].first
  {
  }

  lemma {:induction false} StatusFrame(db: Db, w: Write)
    requires StatusOnly(w)
    ensures var r := Apply(db, w);
      && r.observations == db.observations && r.order == db.order && r.defects.Keys == db.defects.Keys
      && (forall d | d in db.defects ::
            && r.defects[d].observations == db.defects[d].observations
            && r.defects[d].layers == db.defects[d].layers && r.defects[d].first == db.defects[d].first)
  {
    forall d | d in db.defects
      ensures
        && Apply(db, w).defects[d].observations == db.defects[d].observations
        && Apply(db, w).defects[d].layers == db.defects[d].layers
        && Apply(db, w).defects[d].first == db.defects[d].first
    {
      StatusFrameAt(db, w, d);
    }
  }

  lemma {:induction false} KeysFrame(db: Db, w: Write)
    requires forall k :: k in db.keys <==> k in db.obligations
    ensures var r := Apply(db, w); forall k :: k in r.keys <==> k in r.obligations
  {
  }

  /** What a write can do to one obligation row. */
  lemma {:induction false} ObligationRowFrame(db: Db, w: Write, k: Id)
    requires k in Apply(db, w).obligations
    ensures var row := Apply(db, w).obligations[k];
      if k in db.obligations then
        && row.defect == db.obligations[k].defect && KeyOf(row) == KeyOf(db.obligations[k])
        && row.status == (if w == ObligationDispatched(k) then Dispatched
                          else if w.ResultRecorded? && w.key == k then w.result
                          else db.obligations[k].status)
      else w == ObligationInserted(k, row)
  {
  }

  lemma {:induction false} StatusKeepsIndex(db: Db, w: Write)
    requires Indexed(db) && Legal(db, w) && StatusOnly(w)
    ensures Indexed(Apply(db, w))
  {
    var r := Apply(db, w);
    StatusFrame(db, w);
    KeysFrame(db, w);
    forall d | d in r.defects ensures d in r.order && DefectIndexed(r, r.defects[d]) {
      SameIndexed(db, r, db.defects[d], r.defects[d]);
    }
    forall k | k in r.obligations ensures r.obligations[k].defect in r.defects && k == KeyOf(r.obligations[k]) {
      ObligationRowFrame(db, w, k);
    }
  }

  lemma {:induction false} SameIndexed(db: Db, r: Db, d: Defect, e: Defect)
    requires DefectIndexed(db, d) && r.observations == db.observations
    requires e.observations == d.observations && e.layers == d.layers
    ensures DefectIndexed(r, e)
  {
  }

  lemma {:induction false} WriteKeepsIndex(db: Db, w: Write)
    requires Indexed(db) && Legal(db, w)
    ensures Indexed(Apply(db, w))
  {
    match w
    case ObservationRecorded(id, o) => RecordingKeepsIndex(db, id, o);
    case DefectOpened(id, d) => OpeningKeepsIndex(db, id, d);
    case ObservationMerged(id, source) => MergeKeepsIndex(db, id, source);
    case _ => StatusKeepsIndex(db, w);
  }

  // --------------------------------------------------------------- keeping the history

  lemma {:induction false} HistoryGrows(journal: seq<Write>, w: Write, id: Id)
    ensures EverConfirmed(journal, id) ==> EverConfirmed(journal + [w], id)
    ensures EverDeployed(journal, id) ==> EverDeployed(journal + [w], id)
    ensures Confirms(w, id) ==> EverConfirmed(journal + [w], id)
    ensures Deploys(w, id) ==> EverDeployed(journal + [w], id)
  {
    var longer := journal + [w];
    assert longer[|journal|] == w;
    if EverConfirmed(journal, id) {
      var i :| 0 <= i < |journal| && Confirms(journal[i], id);
      assert longer[i] == journal[i];
    }
    if EverDeployed(journal, id) {
      var i :| 0 <= i < |journal| && Deploys(journal[i], id);
      assert longer[i] == journal[i];
    }
  }

  lemma {:induction false} PassStays(journal: seq<Write>, w: Write, key: Id, defect: Id)
    ensures PassedSinceRetest(journal + [w], key, defect) ==
            if w.ResultRecorded? && w.key == key then w.result.Pass?
            else if w == ObligationDispatched(key) || w == RetestStarted(defect) then false
            else PassedSinceRetest(journal, key, defect)
  {
    assert (journal + [w])[..|journal|] == journal;
  }

  lemma {:induction false} WriteKeepsPasses(db: Db, journal: seq<Write>, w: Write, k: Id)
    requires History(db, journal) && Indexed(db) && Legal(db, w)
    requires k in Apply(db, w).obligations && Apply(db, w).obligations[k].status.Pass?
    ensures PassedSinceRetest(journal + [w], k, Apply(db, w).obligations[k].defect)
  {
    PassStays(journal, w, k, Apply(db, w).obligations[k].defect);
    ObligationRowFrame(db, w, k);
  }

  lemma {:induction false} ObligationKept(db: Db, w: Write, k: Id)
    requires k in db.obligations
    ensures k in Apply(db, w).obligations && Apply(db, w).obligations[k].defect == db.obligations[k].defect
  {
  }

  /** Obligations never go away or change hands; only an insertion gives a defect its first one. */
  lemma {:induction false} ObligationsFrame(db: Db, w: Write, id: Id)
    ensures HasObligation(db, id) ==> HasObligation(Apply(db, w), id)
    ensures HasObligation(Apply(db, w), id) && !HasObligation(db, id) ==>
        w.ObligationInserted? && w.obligation.defect == id
  {
    var r := Apply(db, w);
    if HasObligation(db, id) {
      var k :| k in db.obligations && db.obligations[k].defect == id;
      ObligationKept(db, w, k);
    }
    if HasObligation(r, id) {
      var k :| k in r.obligations && r.obligations[k].defect == id;
      ObligationRowFrame(db, w, k);
    }
  }

  lemma {:induction false} NewDefectHistory(db: Db, journal: seq<Write>, id: Id, d: Defect)
    requires Indexed(db) && Legal(db, DefectOpened(id, d))
    ensures DefectHistory(Apply(db, DefectOpened(id, d)), journal + [DefectOpened(id, d)], id)
  {
    HistoryGrows(journal, DefectOpened(id, d), id);
    assert !HasObligation(db, id);
    ObligationsFrame(db, DefectOpened(id, d), id);
  }

  /** Whether the write changes the status or the confirmer of this defect. */
  predicate Decides(w: Write, id: Id) {
    match w
    case DefectDecided(d, _, _) => d == id
    case FixRegistered(d, _) => d == id
    case RetestStarted(d) => d == id
    case ConclusionDrawn(d, _) => d == id
    case DefectClosed(d) => d == id
    case _ => false
  }

  lemma {:induction false} UndecidedFrame(db: Db, w: Write, id: Id)
    requires id in db.defects && !Decides(w, id) && (w.DefectOpened? ==> w.id != id)
    ensures var r := Apply(db, w);
      id in r.defects && r.defects[id].status == db.defects[id].status
      && r.defects[id].confirmer == db.defects[id].confirmer && r.defects[id].mode == db.defects[id].mode
  {
  }

  lemma {:induction false} UndecidedHistory(db: Db, journal: seq<Write>, w: Write, id: Id)
    requires Legal(db, w) && id in db.defects && DefectHistory(db, journal, id) && !Decides(w, id)
    ensures DefectHistory(Apply(db, w), journal + [w], id)
  {
    HistoryGrows(journal, w, id);
    UndecidedFrame(db, w, id);
    ObligationsFrame(db, w, id);
  }

  /** What a deciding write leaves in the row. */
  lemma {:induction false} DecidedFrame(db: Db, w: Write, id: Id)
    requires id in db.defects && Decides(w, id)
    ensures var r := Apply(db, w);
      && id in r.defects && r.obligations == db.obligations && r.defects[id].mode == db.defects[id].mode
      && r.defects[id].confirmer == (if w.DefectDecided? then Some(w.reviewer) else db.defects[id].confirmer)
      && r.defects[id].status ==
         (match w
          case DefectDecided(_, decision, _) => Decided(decision)
          case FixRegistered(_, deployment) => if Given(deployment) then ReadyForRetest else WaitingDeployment
          case RetestStarted(_) => Retesting
          case ConclusionDrawn(_, verified) => if verified then Verified else Reopened
          case _ => Closed)
  {
  }

  lemma {:induction false} DecidedHistory(db: Db, journal: seq<Write>, w: Write, id: Id)
    requires Legal(db, w) && id in db.defects && DefectHistory(db, journal, id) && Decides(w, id)
    ensures DefectHistory(Apply(db, w), journal + [w], id)
  {
    HistoryGrows(journal, w, id);
    DecidedFrame(db, w, id);
    ObligationsFrame(db, w, id);
  }

  lemma {:induction false} WriteKeepsHistory(db: Db, journal: seq<Write>, w: Write)
    requires Indexed(db) && History(db, journal) && Legal(db, w)
    ensures History(Apply(db, w), journal + [w])
  {
    var r := Apply(db, w);
    forall d | d in r.defects ensures DefectHistory(r, journal + [w], d) {
      if d in db.defects {
        if Decides(w, d) {
          DecidedHistory(db, journal, w, d);
        } else {
          UndecidedHistory(db, journal, w, d);
        }
      } else {
        NewDefectHistory(db, journal, d, w.defect);
      }
    }
    forall k | k in r.obligations && r.obligations[k].status.Pass?
      ensures PassedSinceRetest(journal + [w], k, r.obligations[k].defect)
    {
      WriteKeepsPasses(db, journal, w, k);
    }
  }

  lemma {:induction false} WriteKeepsBoth(db: Db, journal: seq<Write>, w: Write)
    requires Indexed(db) && History(db, journal) && Legal(db, w)
    ensures Indexed(Apply(db, w)) && History(Apply(db, w), journal + [w])
  {
    WriteKeepsIndex(db, w);
    WriteKeepsHistory(db, journal, w);
  }

  lemma {:induction false} EmptyKeeps()
    ensures Indexed(EMPTY) && History(EMPTY, [])
  {
  }

  lemma {:induction false} JournalKeeps(journal: seq<Write>)
    requires AllLegal(EMPTY, journal)
    ensures Indexed(Replay(EMPTY, journal)) && History(Replay(EMPTY, journal), journal)
  {
    if journal == [] {
      EmptyKeeps();
    } else {
      var front, last := journal[..|journal| - 1], journal[|journal| - 1];
      JournalKeeps(front);
      JournalStep(front, last, Replay(EMPTY, front));
      assert front + [last] == journal;
    }
  }

  lemma {:induction false} JournalStep(front: seq<Write>, last: Write, db: Db)
    requires db == Replay(EMPTY, front) && Indexed(db) && History(db, front) && Legal(db, last)
    ensures var r := Replay(EMPTY, front + [last]); Indexed(r) && History(r, front + [last])
  {
    WriteKeepsBoth(db, front, last);
    assert (front + [last])[..|front|] == front;
  }

  // ------------------------------------------------------------- every plan is legal

  lemma {:induction false} NoCandidate(db: Db, signature: Signature, pick: Id)
    requires Indexed(db) && Existing(db, signature, pick).None?
    ensures forall d :: !Candidate(db, d, signature)
  {
    forall d ensures !Candidate(db, d, signature) {
      if d in db.defects {
        assert d in db.order;
      }
    }
  }

  lemma {:induction false} CorrelateLegal(db: Db, diagnosis: Id, newId: Id, severity: Id, actor: Id, pick: Id)
    requires Indexed(db)
    ensures AllLegal(db, Correlate(db, diagnosis, newId, severity, actor, pick).writes)
  {
    var writes := Correlate(db, diagnosis, newId, severity, actor, pick).writes;
    if writes != [] {
      var source := db.diagnoses[diagnosis].observation;
      var o := db.observations[source];
      ReplayOne(db, writes[0]);
      assert writes == [writes[0]];
      if Existing(db, o.Signature(), pick).None? {
        NoCandidate(db, o.Signature(), pick);
        assert writes[0].defect == NewDefect(writes[0].defect.mode, source, o, actor);
      }
    }
  }

  /** A batch of insertions for one defect that is ready for its retest. */
  predicate InsertsFor(writes: seq<Write>, id: Id) {
    forall i :: 0 <= i < |writes| ==>
      && writes[i].ObligationInserted? && writes[i].key == KeyOf(writes[i].obligation)
      && writes[i].obligation.defect == id && writes[i].obligation.status.Pending?
  }

  lemma {:induction false} ForLayersInsert(id: Id, layers: seq<Id>, dimensions: seq<Id>)
    ensures InsertsFor(ForLayers(id, layers, dimensions), id)
  {
    if layers != [] {
      ForLayersInsert(id, layers[..|layers| - 1], dimensions);
    }
  }

  lemma {:induction false} InsertedKeysAppend(front: seq<Write>, w: Write)
    requires w.ObligationInserted?
    ensures InsertedKeys(front + [w]) == InsertedKeys(front) + [w.key]
  {
    assert (front + [w])[..|front|] == front;
  }

  lemma {:induction false} InsertLegal(db: Db, mid: Db, id: Id, keys: seq<Id>, w: Write)
    requires id in db.defects && db.defects[id].status in {ReadyForRetest, Retesting}
    requires Inserted(db, mid, keys) && InsertsFor([w], id)
    ensures Legal(mid, w)
  {
    assert [w][0] == w;
  }

  lemma {:induction false} AppendLegal(db: Db, front: seq<Write>, w: Write)
    requires AllLegal(db, front) && Legal(Replay(db, front), w)
    ensures AllLegal(db, front + [w]) && Replay(db, front + [w]) == Apply(Replay(db, front), w)
  {
    assert (front + [w])[..|front|] == front;
  }

  lemma {:induction false} InsertsLegal(db: Db, id: Id, writes: seq<Write>)
    requires id in db.defects && db.defects[id].status in {ReadyForRetest, Retesting} && InsertsFor(writes, id)
    ensures AllLegal(db, writes)
    ensures Inserted(db, Replay(db, writes), InsertedKeys(writes))
  {
    if writes != [] {
      var front, last := writes[..|writes| - 1], writes[|writes| - 1];
      InsertsLegal(db, id, front);
      InsertedKeysAppend(front, last);
      assert front + [last] == writes;
      InsertLegal(db, Replay(db, front), id, InsertedKeys(front), last);
      AppendLegal(db, front, last);
      InsertOne(db, Replay(db, front), InsertedKeys(front), last);
    }
  }

  /** Only obligations under these keys were added, and nothing else changed. */
  ghost predicate Inserted(db: Db, r: Db, keys: seq<Id>) {
    && r == db.(obligations := r.obligations, keys := r.keys)
    && (forall k | k in db.obligations :: k in r.obligations && r.obligations[k] == db.obligations[k])
    && (forall k | k in r.obligations && k !in db.obligations :: k in keys)
    && (forall k | k in keys :: k in r.obligations)
  }

  lemma {:induction false} InsertOne(db: Db, mid: Db, keys: seq<Id>, w: Write)
    requires Inserted(db, mid, keys) && w.ObligationInserted?
    ensures Inserted(db, Apply(mid, w), keys + [w.key])
  {
  }

  /** Exactly these obligations were marked, and nothing else changed. */
  ghost predicate Marked(db: Db, r: Db, keys: seq<Id>) {
    && r == db.(obligations := r.obligations) && r.obligations.Keys == db.obligations.Keys
    && (forall k | k in db.obligations ::
          r.obligations[k] == if k in keys then db.obligations[k].(status := Dispatched) else db.obligations[k])
  }

  lemma {:induction false} MarkOne(db: Db, mid: Db, keys: seq<Id>, key: Id)
    requires Marked(db, mid, keys)
    ensures Marked(db, Apply(mid, ObligationDispatched(key)), keys + [key])
  {
  }

  lemma {:induction false} DispatchAllLegal(db: Db, keys: seq<Id>)
    ensures AllLegal(db, DispatchAll(keys)) && Marked(db, Replay(db, DispatchAll(keys)), keys)
  {
    if keys != [] {
      var front, last := keys[..|keys| - 1], keys[|keys| - 1];
      DispatchAllLegal(db, front);
      assert DispatchAll(keys)[..|keys| - 1] == DispatchAll(front);
      assert keys == front + [last];
      MarkOne(db, Replay(db, DispatchAll(front)), front, last);
    }
  }

  lemma {:induction false} DispatchTailLegal(db: Db, id: Id, keys: seq<Id>)
    requires id in db.defects && db.defects[id].status in {ReadyForRetest, Retesting}
    requires forall k | k in db.obligations && db.obligations[k].defect == id :: k in keys
    ensures AllLegal(db, DispatchAll(keys) + [RetestStarted(id)])
  {
    DispatchAllLegal(db, keys);
    ReplayAppend(db, DispatchAll(keys), [RetestStarted(id)]);
    ReplayOne(Replay(db, DispatchAll(keys)), RetestStarted(id));
  }

  lemma {:induction false} DispatchLegal(db: Db, id: Id)
    requires Indexed(db)
    ensures AllLegal(db, DispatchRetest(db, id).writes)
  {
    if DispatchRetest(db, id).writes != [] {
      if ObligationsOf(db, id) == [] {
        var inserts := ObligationWrites(db, id);
        ForLayersInsert(id, RequiredLayers(db.defects[id]), Dimensions(db, db.defects[id].observations));
        InsertsLegal(db, id, inserts);
        assert forall k | k in db.obligations :: db.obligations[k].defect == id ==> k in ObligationsOf(db, id);
        DispatchTailLegal(Replay(db, inserts), id, InsertedKeys(inserts));
        ReplayAppend(db, inserts, DispatchAll(InsertedKeys(inserts)) + [RetestStarted(id)]);
      } else {
        DispatchTailLegal(db, id, ObligationsOf(db, id));
        assert [] + (DispatchAll(ObligationsOf(db, id)) + [RetestStarted(id)]) == DispatchAll(ObligationsOf(db, id)) +
            [RetestStarted(id)];
      }
    }
  }

  lemma {:induction false} RegisterLegal(db: Db, id: Id, deployment: Option<Id>)
    requires Indexed(db)
    ensures AllLegal(db, RegisterFix(db, id, deployment).writes)
  {
    if RegisterFix(db, id, deployment).writes != [] {
      var fix := FixRegistered(id, deployment);
      ReplayOne(db, fix);
      if Given(deployment) {
        var mid := Apply(db, fix);
        ForLayersInsert(id, RequiredLayers(mid.defects[id]), Dimensions(mid, mid.defects[id].observations));
        InsertsLegal(mid, id, ObligationWrites(mid, id));
        ReplayAppend(db, [fix], ObligationWrites(mid, id));
      }
    }
  }

  lemma {:induction false} ResultLegal(db: Db, key: Id, result: ObligationStatus)
    requires Indexed(db)
    ensures AllLegal(db, RecordResult(db, key, result).writes)
  {
    if RecordResult(db, key, result).writes != [] {
      var w := ResultRecorded(key, result);
      ReplayOne(db, w);
      ObligationKept(db, w, key);
      ConclusionLegal(Apply(db, w), key);
      ReplayAppend(db, [w], Conclusion(Apply(db, w), db.obligations[key].defect));
    }
  }

  lemma {:induction false} ConclusionLegal(db: Db, key: Id)
    requires key in db.obligations && db.obligations[key].defect in db.defects
    ensures AllLegal(db, Conclusion(db, db.obligations[key].defect))
  {
    var writes := Conclusion(db, db.obligations[key].defect);
    if writes != [] {
      ReplayOne(db, writes[0]);
      assert writes == [writes[0]];
    }
  }

  lemma {:induction false} SingleLegal(db: Db, op: Operation)
    requires op.OpObserve? || op.OpDiagnose? || op.OpConfirm? || op.OpClose?
    ensures AllLegal(db, PlanOf(db, op).writes)
  {
    var writes := PlanOf(db, op).writes;
    if writes != [] {
      assert writes == [writes[0]];
      ReplayOne(db, writes[0]);
    }
  }

  lemma {:induction false} PlanLegal(db: Db, op: Operation)
    requires Indexed(db)
    ensures AllLegal(db, PlanOf(db, op).writes)
  {
    match op
    case OpCorrelate(diagnosis, newId, severity, actor, pick) => CorrelateLegal(db, diagnosis, newId, severity, actor,
      pick);
    case OpRegisterFix(id, deployment) => RegisterLegal(db, id, deployment);
    case OpDispatch(id) => DispatchLegal(db, id);
    case OpRecordResult(key, result) => ResultLegal(db, key, result);
    case _ => SingleLegal(db, op);
  }

  lemma {:induction false} RunLegal(steps: seq<Step>)
    ensures AllLegal(EMPTY, Journal(steps))
    ensures Indexed(Run(steps)) && History(Run(steps), Journal(steps))
  {
    if steps != [] {
      var front, last := steps[..|steps| - 1], steps[|steps| - 1];
      RunLegal(front);
      var writes := PlanOf(Run(front), last.op).writes;
      PlanLegal(Run(front), last.op);
      if last.survives < |writes| {
        LegalPrefix(Run(front), writes, last.survives);
      }
      ReplayAppend(EMPTY, Journal(front), Take(writes, last.survives));
    }
    JournalKeeps(Journal(steps));
  }
  lemma {:induction false} RunIndexed(steps: seq<Step>)
    ensures Indexed(Run(steps))
  {
    RunLegal(steps);
  }

  /** One more step of a run. */
  lemma {:induction false} RunStep(steps: seq<Step>, step: Step)
    ensures Journal(steps + [step]) == Journal(steps) + Take(PlanOf(Run(steps), step.op).writes, step.survives)
    ensures Run(steps + [step]) == After(Run(steps), step)
  {
    assert (steps + [step])[..|steps|] == steps;
    ReplayAppend(EMPTY, Journal(steps), Take(PlanOf(Run(steps), step.op).writes, step.survives));
  }

  /** What survives of a step is legal. */
  lemma {:induction false} StepLegal(db: Db, step: Step)
    requires Indexed(db)
    ensures AllLegal(db, Take(PlanOf(db, step.op).writes, step.survives))
  {
    var writes := PlanOf(db, step.op).writes;
    PlanLegal(db, step.op);
    if step.survives < |writes| {
      LegalPrefix(db, writes, step.survives);
    }
  }

  lemma {:induction false} WritesKeepIndex(db: Db, writes: seq<Write>)
    requires Indexed(db) && AllLegal(db, writes)
    ensures Indexed(Replay(db, writes))
  {
    if writes != [] {
      WritesKeepIndex(db, writes[..|writes| - 1]);
      WriteKeepsIndex(Replay(db, writes[..|writes| - 1]), writes[|writes| - 1]);
    }
  }

  lemma {:induction false} StepKeepsIndex(db: Db, step: Step)
    requires Indexed(db)
    ensures Indexed(After(db, step))
  {
    StepLegal(db, step);
    WritesKeepIndex(db, Take(PlanOf(db, step.op).writes, step.survives));
  }
}

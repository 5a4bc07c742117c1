/** Verified knowledge: supersession by key, and resolution in a context. */
module Knowledge {
  import opened Prelude
  import opened Json
  import opened CanonicalJson
  import opened ContractMatch

  type Id = string

  datatype Status = Candidate | Verified | Invalidated | Superseded

  datatype Confidence = High | Medium | Low

  /** `scope` is kept in key order, as its stored text has it. */
  datatype Record = Record(
    id: Id, project: Id, subject: Id, property: Id, fact: Value, scope: seq<(string, Value)>,
    confidence: Confidence, status: Status, reviewedAt: Option<int>, createdAt: int)

  predicate SameKey(a: Record, b: Record) {
    a.project == b.project && a.subject == b.subject && a.property == b.property && a.scope == b.scope
  }

  function FindRecord(records: seq<Record>, id: Id): (i: Option<nat>)
    ensures i.Some? ==> i.value < |records| && records[i.value].id == id
    ensures i.None? ==> forall j :: 0 <= j < |records| ==> records[j].id != id
  {
    if records == [] then None
    else if records[|records| - 1].id == id then Some(|records| - 1)
    else FindRecord(records[..|records| - 1], id)
  }

  // ------------------------------------------------------------------- operations

  datatype Failure = NotFound | NotVerifiable | UniqueViolation

  function StoredScope(scope: Value): (fields: seq<(string, Value)>) {
    if Normal(scope).Obj? then Normal(scope).fields else []
  }

  function Created(records: seq<Record>, r: Record, scope: Value): (q: seq<Record>) {
    if FindRecord(records, r.id).Some? then records
    else records + [r.(status := Candidate, scope := StoredScope(scope), reviewedAt := None)]
  }

  /** The other verified records of the key step back, the record is verified. */
  function VerifiedRow(row: Record, target: Record, confidence: Confidence, now: int): (r: Record) {
    if row.id == target.id then row.(status := Verified, confidence := confidence, reviewedAt := Some(now))
    else if SameKey(row, target) && row.status.Verified? then row.(status := Superseded)
    else row
  }

  function AfterVerify(records: seq<Record>, i: nat, confidence: Confidence, now: int): (r: seq<Record>)
    requires i < |records|
    ensures |r| == |records|
    ensures forall j :: 0 <= j < |records| ==> r[j] == VerifiedRow(records[j], records[i], confidence, now)
  {
    seq(|records|, j requires 0 <= j < |records| => VerifiedRow(records[j], records[i], confidence, now))
  }

  function SetField(fields: seq<(string, Value)>, key: string, value: Value): (r: seq<(string, Value)>) {
    if fields == [] then [(key, value)]
    else if fields[0].0 == key then [(key, value)] + fields[1..]
    else [fields[0]] + SetField(fields[1..], key, value)
  }

  function WithReason(fact: Value, reason: string): (v: Value) {
    if fact.Obj? then Obj(SetField(fact.fields, "invalidation_reason", Str(reason)))
    else Obj([("value", fact), ("invalidation_reason", Str(reason))])
  }

  datatype Operation =
    | Create(record: Record, scope: Value)
    | Verify(id: Id, confidence: Confidence, now: int)
    | Invalidate(id: Id, reason: string, now: int)

  /** Each operation is one transaction, or is refused and changes nothing. */
  function Apply(records: seq<Record>, op: Operation): (r: seq<Record>) {
    match op
    case Create(record, scope) => Created(records, record, scope)
    case Verify(id, confidence, now) =>
      (match FindRecord(records, id)
       case None => records
       case Some(i) => if records[i].status in {Candidate, Verified} then AfterVerify(records, i, confidence, now)
         else records)
    case Invalidate(id, reason, now) =>
      (match FindRecord(records, id)
       case None => records
       case Some(i) =>
         records[i := records[i].(status := Invalidated, fact := WithReason(records[i].fact, reason),
           reviewedAt := Some(now))])
  }

  function Run(records: seq<Record>, ops: seq<Operation>): (r: seq<Record>) {
    if ops == [] then records else Apply(Run(records, ops[..|ops| - 1]), ops[|ops| - 1])
  }

  // ------------------------------------------------------------------- supersession

  ghost predicate DistinctIds(records: seq<Record>) {
    forall i, j :: 0 <= i < j < |records| ==> records[i].id != records[j].id
  }

  ghost predicate OneVerified(records: seq<Record>) {
    forall i, j :: 0 <= i < j < |records| && records[i].status.Verified? && records[j].status.Verified? ==>
      !SameKey(records[i], records[j])
  }

  lemma {:induction false} VerifyKeeps(records: seq<Record>, i: nat, confidence: Confidence, now: int)
    requires i < |records| && DistinctIds(records) && OneVerified(records)
    ensures DistinctIds(AfterVerify(records, i, confidence, now))
        && OneVerified(AfterVerify(records, i, confidence, now))
  {
    var r := AfterVerify(records, i, confidence, now);
    forall a, b | 0 <= a < b < |r| && r[a].status.Verified? && r[b].status.Verified? ensures !SameKey(r[a], r[b]) {
      assert a != i ==> records[a].status.Verified? && !SameKey(records[a], records[i]);
      assert b != i ==> records[b].status.Verified? && !SameKey(records[b], records[i]);
    }
  }

  lemma {:induction false} OperationKeeps(records: seq<Record>, op: Operation)
    requires DistinctIds(records) && OneVerified(records)
    ensures DistinctIds(Apply(records, op)) && OneVerified(Apply(records, op))
  {
    if op.Verify? && FindRecord(records, op.id).Some? {
      VerifyKeeps(records, FindRecord(records, op.id).value, op.confidence, op.now);
    }
  }

  /** In every reachable state at most one record of a key is verified. */
  lemma {:induction false} AtMostOneVerified(ops: seq<Operation>)
    ensures DistinctIds(Run([], ops)) && OneVerified(Run([], ops))
  {
    if ops != [] {
      AtMostOneVerified(ops[..|ops| - 1]);
      OperationKeeps(Run([], ops[..|ops| - 1]), ops[|ops| - 1]);
    }
  }

  /** Verification, unless refused, makes the record the only verified one of its key and lowers no other. */
  lemma {:induction false} VerifyEffect(records: seq<Record>, i: nat, confidence: Confidence, now: int, j: nat)
    requires DistinctIds(records) && i < |records| && j < |records|
    requires records[i].status in {Candidate, Verified}
    ensures var r := Apply(records, Verify(records[i].id, confidence, now));
      && |r| == |records| && r[i].status.Verified? && r[i].confidence == confidence
      && (j != i && SameKey(records[j], records[i]) ==> !r[j].status.Verified?)
      && (j != i && !(SameKey(records[j], records[i]) && records[j].status.Verified?) ==> r[j] == records[j])
  {
    assert FindRecord(records, records[i].id) == Some(i);
  }

  predicate Retired(r: Record) {
    r.status.Superseded? || r.status.Invalidated?
  }

  lemma {:induction false} RetiredStays(records: seq<Record>, op: Operation, i: nat)
    requires DistinctIds(records) && i < |records| && Retired(records[i])
    ensures i < |Apply(records, op)| && Apply(records, op)[i].id == records[i].id && Retired(Apply(records, op)[i])
  {
    if op.Verify? && FindRecord(records, op.id).Some? {
      var k := FindRecord(records, op.id).value;
      assert k != i ==> records[k].id != records[i].id;
    }
  }

  /** A superseded or invalidated record is never verified again. */
  lemma {:induction false} RetiredForever(ops: seq<Operation>, more: seq<Operation>, i: nat)
    requires i < |Run([], ops)| && Retired(Run([], ops)[i])
    ensures var later := Run(Run([], ops), more);
      i < |later| && later[i].id == Run([], ops)[i].id && Retired(later[i]) && DistinctIds(later)
  {
    AtMostOneVerified(ops);
    RetiredThrough(Run([], ops), more, i);
  }

  lemma {:induction false} RetiredThrough(records: seq<Record>, more: seq<Operation>, i: nat)
    requires DistinctIds(records) && OneVerified(records) && i < |records| && Retired(records[i])
    ensures var later := Run(records, more);
      && i < |later| && later[i].id == records[i].id && Retired(later[i])
      && DistinctIds(later) && OneVerified(later)
  {
    if more != [] {
      RetiredThrough(records, more[..|more| - 1], i);
      OperationKeeps(Run(records, more[..|more| - 1]), more[|more| - 1]);
      RetiredStays(Run(records, more[..|more| - 1]), more[|more| - 1], i);
    }
  }

  // --------------------------------------------------------------------- resolution

  /** A scope value that does not restrict anything. */
  predicate Wildcard(v: Value) {
    v.Null? || v == Str("") || v == Str("*")
  }

  /** Python's equality: order of members aside, and True equals 1. */
  predicate DeepEqual(v: Value, w: Value)
    decreases v, 0
  {
    if v.List? && w.List? then
      |v.items| == |w.items| && forall i :: 0 <= i < |v.items| ==> DeepEqual(v.items[i], w.items[i])
    else if v.Obj? && w.Obj? then
      |v.fields| == |w.fields| && forall i :: 0 <= i < |v.fields| ==> EqualField(v, i, w.fields)
    else ScalarEqual(v, w)
  }

  predicate EqualField(v: Value, i: nat, fields: seq<(string, Value)>)
    requires v.Obj? && i < |v.fields|
    decreases v.fields[i].1, 1
  {
    Has(fields, v.fields[i].0) && DeepEqual(v.fields[i].1, Lookup(fields, v.fields[i].0))
  }

  predicate Satisfies(context: seq<(string, Value)>, key: string, v: Value) {
    Wildcard(v) || (Has(context, key) && DeepEqual(v, Lookup(context, key)))
  }

  /** Every scoped key matches the context. */
  predicate InScope(scope: seq<(string, Value)>, context: seq<(string, Value)>) {
    forall i :: 0 <= i < |scope| ==> Satisfies(context, scope[i].0, scope[i].1)
  }

  datatype Query = Query(project: Id, subject: Option<Id>, property: Option<Id>, includeCandidates: bool)

  predicate Eligible(r: Record, q: Query) {
    && r.project == q.project
    && (r.status.Verified? || (q.includeCandidates && r.status.Candidate?))
    && (q.subject.Some? && q.subject.value != "" ==> r.subject == q.subject.value)
    && (q.property.Some? && q.property.value != "" ==> r.property == q.property.value)
  }

  function Rank(c: Confidence): (n: nat) {
    match c
    case High => 1
    case Medium => 2
    case Low => 3
  }

  /** Confident first, then the most recently reviewed (never reviewed last), then the newest. */
  predicate Precedes(a: Record, b: Record) {
    if Rank(a.confidence) != Rank(b.confidence) then Rank(a.confidence) < Rank(b.confidence)
    else if a.reviewedAt != b.reviewedAt then
      a.reviewedAt.Some? && (b.reviewedAt.None? || a.reviewedAt.value > b.reviewedAt.value)
    else a.createdAt >= b.createdAt
  }

  function Place(r: Record, rows: seq<Record>): (q: seq<Record>) {
    if rows == [] || Precedes(r, rows[0]) then [r] + rows else [rows[0]] + Place(r, rows[1..])
  }

  /** The eligible records in the order of the query. */
  function Rows(records: seq<Record>, q: Query): (rows: seq<Record>) {
    if records == [] then []
    else
      var rest := Rows(records[..|records| - 1], q);
      if Eligible(records[|records| - 1], q) then Place(records[|records| - 1], rest) else rest
  }

  function Kept(rows: seq<Record>, context: seq<(string, Value)>): (r: seq<Record>) {
    if rows == [] then []
    else Kept(rows[..|rows| - 1], context) + if InScope(rows[|rows| - 1].scope, context) then [rows[|rows| - 1]] else []
  }

  function Resolve(records: seq<Record>, q: Query, context: seq<(string, Value)>): (r: seq<Record>) {
    Kept(Rows(records, q), context)
  }

  class KnowledgeBase {
    var records: seq<Record>

    constructor ()
      ensures records == []
    {
      records := [];
    }

    method CreateCandidate(record: Record, scope: Value) returns (result: Result<Id, Failure>)
      modifies this
      ensures records == Apply(old(records), Create(record, scope))
      ensures result == if FindRecord(old(records), record.id).Some? then Err(UniqueViolation) else Ok(record.id)
    {
      if FindRecord(records, record.id).Some? {
        return Err(UniqueViolation);
      }
      records := records + [record.(status := Candidate, scope := StoredScope(scope), reviewedAt := None)];
      result := Ok(record.id);
    }

    /** Supersedes row by row, then verifies, in one transaction. */
    method VerifyRecord(id: Id, confidence: Confidence, now: int) returns (result: Result<Id, Failure>)
      modifies this
      ensures records == Apply(old(records), Verify(id, confidence, now))
      ensures result == (match FindRecord(old(records), id)
                         case None => Err(NotFound)
                         case Some(i) => if old(records)[i].status in {Candidate, Verified} then Ok(id)
                           else Err(NotVerifiable))
    {
      var found := FindRecord(records, id);
      if found.None? {
        return Err(NotFound);
      }
      var target := records[found.value];
      if target.status !in {Candidate, Verified} {
        return Err(NotVerifiable);
      }
      for j := 0 to |records|
        invariant |records| == |old(records)|
        invariant forall k :: 0 <= k < j ==> records[k] == VerifiedRow(old(records)[k], target, confidence, now)
        invariant forall k :: j <= k < |records| ==> records[k] == old(records)[k]
      {
        records := records[j := VerifiedRow(records[j], target, confidence, now)];
      }
      result := Ok(id);
    }

    method InvalidateRecord(id: Id, reason: string, now: int) returns (result: Result<Id, Failure>)
      modifies this
      ensures records == Apply(old(records), Invalidate(id, reason, now))
      ensures result == if FindRecord(old(records), id).Some? then Ok(id) else Err(NotFound)
    {
      var found := FindRecord(records, id);
      if found.None? {
        return Err(NotFound);
      }
      var i := found.value;
      records := records[i := records[i].(status := Invalidated, fact := WithReason(records[i].fact, reason),
        reviewedAt := Some(now))];
      result := Ok(id);
    }

    method ResolveAll(q: Query, context: seq<(string, Value)>) returns (result: seq<Record>)
      ensures result == Resolve(records, q, context)
    {
      var rows := Rows(records, q);
      result := [];
      for i := 0 to |rows|
        invariant result == Kept(rows[..i], context)
      {
        assert rows[..i + 1][..i] == rows[..i];
        if InScope(rows[i].scope, context) {
          result := result + [rows[i]];
        }
      }
      assert rows[..|rows|] == rows;
    }
  }

  lemma {:induction false} PlaceMembers(r: Record, rows: seq<Record>)
    ensures multiset(Place(r, rows)) == multiset(rows) + multiset{r}
  {
    if rows != [] && !Precedes(r, rows[0]) {
      PlaceMembers(r, rows[1..]);
      assert rows == [rows[0]] + rows[1..];
    }
  }

  function Filtered(records: seq<Record>, q: Query): (r: seq<Record>) {
    if records == [] then []
    else Filtered(records[..|records| - 1], q) + if Eligible(records[|records| - 1], q) then [records[|records| - 1]]
      else []
  }

  lemma {:induction false} RowsMembers(records: seq<Record>, q: Query)
    ensures multiset(Rows(records, q)) == multiset(Filtered(records, q))
  {
    if records != [] {
      RowsMembers(records[..|records| - 1], q);
      PlaceMembers(records[|records| - 1], Rows(records[..|records| - 1], q));
    }
  }

  lemma {:induction false} KeptMembers(rows: seq<Record>, context: seq<(string, Value)>)
    ensures forall r :: r in Kept(rows, context) <==> r in rows && InScope(r.scope, context)
  {
    if rows != [] {
      KeptMembers(rows[..|rows| - 1], context);
      assert rows == rows[..|rows| - 1] + [rows[|rows| - 1]];
    }
  }

  lemma {:induction false} FilteredMembers(records: seq<Record>, q: Query)
    ensures forall r :: r in Filtered(records, q) <==> r in records && Eligible(r, q)
  {
    if records != [] {
      FilteredMembers(records[..|records| - 1], q);
      assert records == records[..|records| - 1] + [records[|records| - 1]];
    }
  }

  /** Exactly the eligible records whose scope matches the context are returned. */
  lemma {:induction false} ResolveExact(records: seq<Record>, q: Query, context: seq<(string, Value)>)
    ensures forall r :: r in Resolve(records, q, context) <==>
        r in records && Eligible(r, q) && InScope(r.scope, context)
  {
    RowsMembers(records, q);
    FilteredMembers(records, q);
    KeptMembers(Rows(records, q), context);
    forall r ensures r in Rows(records, q) <==> r in Filtered(records, q) {
      assert r in multiset(Rows(records, q)) <==> r in multiset(Filtered(records, q));
    }
  }

  // Order

  ghost predicate InOrder(rows: seq<Record>) {
    forall i, j :: 0 <= i < j < |rows| ==> Precedes(rows[i], rows[j])
  }

  lemma {:induction false} PrecedesTransitive(a: Record, b: Record, c: Record)
    requires Precedes(a, b) && Precedes(b, c)
    ensures Precedes(a, c)
  {
  }

  lemma {:induction false} PrecedesTotal(a: Record, b: Record)
    ensures Precedes(a, b) || Precedes(b, a)
  {
  }

  lemma {:induction false} HeadInOrder(r: Record, rows: seq<Record>)
    requires InOrder(rows) && forall x | x in rows :: Precedes(r, x)
    ensures InOrder([r] + rows)
  {
  }

  lemma {:induction false} PlaceInOrder(r: Record, rows: seq<Record>)
    requires InOrder(rows)
    ensures InOrder(Place(r, rows))
  {
    if rows == [] {
    } else if Precedes(r, rows[0]) {
      forall x | x in rows ensures Precedes(r, x) {
        var i :| 0 <= i < |rows| && rows[i] == x;
        if i > 0 {
          PrecedesTransitive(r, rows[0], x);
        }
      }
      HeadInOrder(r, rows);
    } else {
      PrecedesTotal(r, rows[0]);
      PlaceInOrder(r, rows[1..]);
      PlaceMembers(r, rows[1..]);
      forall x | x in Place(r, rows[1..]) ensures Precedes(rows[0], x) {
        assert x in multiset(Place(r, rows[1..]));
        assert x == r || x in rows[1..];
      }
      HeadInOrder(rows[0], Place(r, rows[1..]));
    }
  }

  lemma {:induction false} RowsInOrder(records: seq<Record>, q: Query)
    ensures InOrder(Rows(records, q))
  {
    if records != [] {
      RowsInOrder(records[..|records| - 1], q);
      PlaceInOrder(records[|records| - 1], Rows(records[..|records| - 1], q));
    }
  }

  lemma {:induction false} KeptInOrder(rows: seq<Record>, context: seq<(string, Value)>)
    requires InOrder(rows)
    ensures InOrder(Kept(rows, context))
  {
    if rows != [] {
      var front, last := rows[..|rows| - 1], rows[|rows| - 1];
      KeptInOrder(front, context);
      KeptMembers(front, context);
      forall r | r in Kept(front, context) ensures Precedes(r, last) {
        var i :| 0 <= i < |front| && front[i] == r;
        assert rows[i] == r;
      }
    }
  }

  /** The results come in the order of the query. */
  lemma {:induction false} ResolveInOrder(records: seq<Record>, q: Query, context: seq<(string, Value)>)
    ensures InOrder(Resolve(records, q, context))
  {
    RowsInOrder(records, q);
    KeptInOrder(Rows(records, q), context);
  }

  /** Without candidates no two results have the same key. */
  lemma {:induction false} ResolveDistinctKeys(ops: seq<Operation>, q: Query, context: seq<(string, Value)>, a: Record,
      b: Record)
    requires !q.includeCandidates
    requires a in Resolve(Run([], ops), q, context) && b in Resolve(Run([], ops), q, context) && SameKey(a, b)
    ensures a == b
  {
    var records := Run([], ops);
    AtMostOneVerified(ops);
    ResolveExact(records, q, context);
    var i :| 0 <= i < |records| && records[i] == a;
    var j :| 0 <= j < |records| && records[j] == b;
  }

  /** The context knows everything the smaller one knows. */
  predicate Gains(context: seq<(string, Value)>, larger: seq<(string, Value)>) {
    forall i :: 0 <= i < |context| ==>
      Has(larger, context[i].0) && Lookup(larger, context[i].0) == Lookup(context, context[i].0)
  }

  /** A context that gains keys never loses a result. */
  lemma {:induction false} ResolveMonotone(
      records: seq<Record>, q: Query, context: seq<(string, Value)>, larger: seq<(string, Value)>, r: Record)
    requires Gains(context, larger) && r in Resolve(records, q, context)
    ensures r in Resolve(records, q, larger)
  {
    ResolveExact(records, q, context);
    ResolveExact(records, q, larger);
    forall i | 0 <= i < |r.scope| ensures Satisfies(larger, r.scope[i].0, r.scope[i].1) {
      assert Satisfies(context, r.scope[i].0, r.scope[i].1);
    }
  }

  lemma {:induction false} SetFieldLookup(fields: seq<(string, Value)>, key: string, value: Value, other: string)
    ensures Has(SetField(fields, key, value), key) && Lookup(SetField(fields, key, value), key) == value
    ensures other != key ==> (Has(SetField(fields, key, value), other) <==> Has(fields, other))
    ensures other != key && Has(fields, other) ==> Lookup(SetField(fields, key, value), other) == Lookup(fields, other)
  {
    var r := SetField(fields, key, value);
    if fields == [] {
      assert r[0].0 == key;
    } else if fields[0].0 == key {
      assert r[0].0 == key && r[1..] == fields[1..];
      HasSplit(r, other);
      HasSplit(fields, other);
    } else {
      SetFieldLookup(fields[1..], key, value, other);
      assert r[1..] == SetField(fields[1..], key, value);
      HasSplit(r, key);
      HasSplit(r, other);
      HasSplit(fields, other);
    }
  }

  lemma {:induction false} HasSplit(fields: seq<(string, Value)>, key: string)
    requires fields != []
    ensures Has(fields, key) <==> fields[0].0 == key || Has(fields[1..], key)
  {
    if Has(fields[1..], key) {
      var i :| 0 <= i < |fields| - 1 && fields[1..][i].0 == key;
      assert fields[i + 1].0 == key;
    }
    if Has(fields, key) && fields[0].0 != key {
      var i :| 0 <= i < |fields| && fields[i].0 == key;
      assert fields[1..][i - 1].0 == key;
    }
  }

  /** An invalidated object says why, and keeps every other member it had. */
  lemma {:induction false} ReasonStored(fields: seq<(string, Value)>, reason: string, other: string)
    requires other != "invalidation_reason"
    ensures var v := WithReason(Obj(fields), reason);
      && v.Obj? && Has(v.fields, "invalidation_reason") && Lookup(v.fields, "invalidation_reason") == Str(reason)
      && (Has(fields, other) ==> Has(v.fields, other) && Lookup(v.fields, other) == Lookup(fields, other))
  {
    SetFieldLookup(fields, "invalidation_reason", Str(reason), other);
  }
}

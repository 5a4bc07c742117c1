/** Matching a step's output against the expected value its plan froze. */
module ContractMatch {
  import opened Json

  /** Python's truth value. */
  predicate Truthy(v: Value) {
    match v
    case Null => false
    case Bool(flag) => flag
    case Int(number) => number != 0
    case Str(text) => text != ""
    case List(items) => items != []
    case Obj(fields) => fields != []
  }

  /** Python's equality between values that are not both lists or both objects; True equals 1. */
  predicate ScalarEqual(a: Value, b: Value) {
    match (a, b)
    case (Bool(x), Int(n)) => n == if x then 1 else 0
    case (Int(n), Bool(x)) => n == if x then 1 else 0
    case (Bool(x), Bool(y)) => x == y
    case (Int(m), Int(n)) => m == n
    case (Str(s), Str(t)) => s == t
    case (Null, Null) => true
    case _ => false
  }

  /** The contract asks for nothing in particular: only for an outcome that is not a failure. */
  predicate Vacant(v: Value) {
    v.Null? || v == Obj([])
  }

  predicate NotFailed(v: Value) {
    v.Obj? && Has(v.fields, "ok") ==> Truthy(Lookup(v.fields, "ok"))
  }

  predicate Match(expected: Value, actual: Value)
    decreases expected, 0
  {
    if Vacant(expected) then NotFailed(actual)
    else if expected.Obj? && actual.Obj? then
      forall i :: 0 <= i < |expected.fields| ==>
        && Has(actual.fields, expected.fields[i].0)
        && Match(expected.fields[i].1, Lookup(actual.fields, expected.fields[i].0))
    else if expected.List? && actual.List? then
      forall i :: 0 <= i < |expected.items| ==> Found(expected.items[i], actual.items)
    else ScalarEqual(expected, actual)
  }

  /** Some element satisfies the contract. */
  predicate Found(expected: Value, actual: seq<Value>)
    decreases expected, 1
  {
    exists j :: 0 <= j < |actual| && Match(expected, actual[j])
  }

  /** Every value satisfies itself as a contract. */
  lemma {:induction false} MatchReflexive(v: Value)
    requires WellFormed(v)
    ensures Match(v, v)
    decreases v
  {
    match v
    case List(items) =>
      forall i | 0 <= i < |items| ensures Found(items[i], items) {
        MatchReflexive(items[i]);
      }
    case Obj(fields) =>
      forall i | 0 <= i < |fields|
        ensures Has(fields, fields[i].0) && Match(fields[i].1, Lookup(fields, fields[i].0))
      {
        LookupField(fields, i);
        MatchReflexive(fields[i].1);
      }
    case _ =>
  }

  /** No null and no empty object at any depth. */
  predicate Clean(v: Value) {
    && !Vacant(v)
    && (v.List? ==> forall i :: 0 <= i < |v.items| ==> Clean(v.items[i]))
    && (v.Obj? ==> forall i :: 0 <= i < |v.fields| ==> Clean(v.fields[i].1))
  }

  lemma {:induction false} ObjectTransitive(e: Value, a: Value, b: Value)
    requires e.Obj? && Clean(e) && Match(e, a) && Match(a, b)
    ensures Match(e, b)
    decreases e, 0
  {
    assert |e.fields| > 0;
    assert a.Obj? && Has(a.fields, e.fields[0].0);
    assert !Vacant(a);
    forall i | 0 <= i < |e.fields|
      ensures Has(b.fields, e.fields[i].0) && Match(e.fields[i].1, Lookup(b.fields, e.fields[i].0))
    {
      var key := e.fields[i].0;
      var j :| 0 <= j < |a.fields| && a.fields[j] == (key, Lookup(a.fields, key));
      assert Has(b.fields, a.fields[j].0) && Match(a.fields[j].1, Lookup(b.fields, a.fields[j].0));
      MatchTransitive(e.fields[i].1, a.fields[j].1, Lookup(b.fields, key));
    }
  }

  lemma {:induction false} ListTransitive(e: Value, a: Value, b: Value)
    requires e.List? && Clean(e) && Match(e, a) && Match(a, b)
    ensures Match(e, b)
    decreases e, 0
  {
    forall i | 0 <= i < |e.items| ensures Found(e.items[i], b.items) {
      assert Found(e.items[i], a.items);
      var j :| 0 <= j < |a.items| && Match(e.items[i], a.items[j]);
      assert Found(a.items[j], b.items);
      var l :| 0 <= l < |b.items| && Match(a.items[j], b.items[l]);
      MatchTransitive(e.items[i], a.items[j], b.items[l]);
    }
  }

  /** Contracts chain, provided the left one is clean. */
  lemma {:induction false} MatchTransitive(e: Value, a: Value, b: Value)
    requires Clean(e) && Match(e, a) && Match(a, b)
    ensures Match(e, b)
    decreases e, 1
  {
    if e.Obj? {
      ObjectTransitive(e, a, b);
    } else if e.List? {
      ListTransitive(e, a, b);
    }
  }

  // ---------------------------------------------------------------- where chaining can fail

  ghost predicate Chains(e: Value) {
    forall a, b | WellFormed(a) && WellFormed(b) && Match(e, a) && Match(a, b) :: Match(e, b)
  }

  const PARTIAL := Obj([("k", Int(1))])
  const FAILED := Obj([("k", Int(1)), ("ok", Bool(false))])

  /** A vacant contract accepts a partial outcome, which accepts a failed one. */
  lemma {:induction false} VacantBreaks()
    ensures Match(PARTIAL, FAILED) && !NotFailed(FAILED) && NotFailed(PARTIAL)
    ensures WellFormed(PARTIAL) && WellFormed(FAILED)
  {
    LookupField(FAILED.fields, 0);
    LookupField(FAILED.fields, 1);
    assert FAILED.fields[0] == ("k", Int(1));
    assert Has(PARTIAL.fields, "ok") ==> false;
  }

  /** Replacing one field keeps the keys. */
  lemma {:induction false} FieldReplaced(fields: seq<(string, Value)>, i: nat, v: Value)
    requires DistinctKeys(fields) && i < |fields|
    ensures var r := fields[i := (fields[i].0, v)];
      && DistinctKeys(r)
      && forall j :: 0 <= j < |fields| ==>
           Has(r, fields[j].0) && Lookup(r, fields[j].0) == if j == i then v else fields[j].1
  {
    var r := fields[i := (fields[i].0, v)];
    forall j | 0 <= j < |fields|
      ensures Has(r, fields[j].0) && Lookup(r, fields[j].0) == if j == i then v else fields[j].1
    {
      LookupField(r, j);
    }
  }
}

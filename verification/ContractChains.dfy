/** Exactly which expected values chain: whatever an output they accept accepts, they accept too. */
module ContractChains {
  import opened Json
  import opened ContractMatch

  /** What satisfies something that satisfies x satisfies y. */
  ghost predicate ChainsTo(x: Value, y: Value) {
    forall a, b | WellFormed(a) && WellFormed(b) && Match(x, a) && Match(a, b) :: Match(y, b)
  }

  /** Nothing under x can be an outcome that failed. */
  predicate KeepsOk(x: Value) {
    !Vacant(x) && (x.Obj? ==> Has(x.fields, "ok") && Truthy(Lookup(x.fields, "ok")))
  }

  /** The same, read off the two values. */
  predicate Carries(x: Value, y: Value)
    decreases y, 0
  {
    if Vacant(y) then KeepsOk(x)
    else if y.Obj? then
      && x.Obj?
      && forall i :: 0 <= i < |y.fields| ==>
           && Has(x.fields, y.fields[i].0)
           && Carries(Lookup(x.fields, y.fields[i].0), y.fields[i].1)
    else if y.List? then x.List? && forall i :: 0 <= i < |y.items| ==> CarriedBySome(x.items, y.items[i])
    else ScalarEqual(x, y)
  }

  predicate CarriedBySome(xs: seq<Value>, y: Value)
    decreases y, 1
  {
    exists j :: 0 <= j < |xs| && Carries(xs[j], y)
  }

  // ------------------------------------------------------------------ it is sufficient

  lemma {:induction false} TruthyKept(v: Value, a: Value)
    requires Truthy(v) && Match(v, a)
    ensures Truthy(a)
  {
    if v.Obj? {
      assert Has(a.fields, v.fields[0].0);
    } else if v.List? {
      assert Found(v.items[0], a.items);
    }
  }

  /** A key of a contract is in every output, with a value that satisfies its own. */
  lemma {:induction false} KeyMatched(x: Value, a: Value, key: string)
    requires x.Obj? && Has(x.fields, key) && Match(x, a)
    ensures a.Obj? && !Vacant(a) && Has(a.fields, key) && Match(Lookup(x.fields, key), Lookup(a.fields, key))
  {
    var j :| 0 <= j < |x.fields| && x.fields[j] == (key, Lookup(x.fields, key));
    assert !Vacant(x);
  }

  lemma {:induction false} OkKept(x: Value, a: Value, b: Value)
    requires KeepsOk(x) && Match(x, a) && Match(a, b)
    ensures NotFailed(b)
  {
    if x.Obj? {
      KeyMatched(x, a, "ok");
      KeyMatched(a, b, "ok");
      TruthyKept(Lookup(x.fields, "ok"), Lookup(a.fields, "ok"));
      TruthyKept(Lookup(a.fields, "ok"), Lookup(b.fields, "ok"));
    }
  }

  lemma {:induction false} CarriesSound(x: Value, y: Value, a: Value, b: Value)
    requires Carries(x, y) && Match(x, a) && Match(a, b)
    ensures Match(y, b)
    decreases y
  {
    if Vacant(y) {
      OkKept(x, a, b);
    } else if y.Obj? {
      assert Has(x.fields, y.fields[0].0);
      KeyMatched(x, a, y.fields[0].0);
      KeyMatched(a, b, y.fields[0].0);
      forall i | 0 <= i < |y.fields|
        ensures Has(b.fields, y.fields[i].0) && Match(y.fields[i].1, Lookup(b.fields, y.fields[i].0))
      {
        var key := y.fields[i].0;
        KeyMatched(x, a, key);
        KeyMatched(a, b, key);
        CarriesSound(Lookup(x.fields, key), y.fields[i].1, Lookup(a.fields, key), Lookup(b.fields, key));
      }
    } else if y.List? {
      forall i | 0 <= i < |y.items| ensures Found(y.items[i], b.items) {
        assert CarriedBySome(x.items, y.items[i]);
        var j :| 0 <= j < |x.items| && Carries(x.items[j], y.items[i]);
        assert Found(x.items[j], a.items);
        var l :| 0 <= l < |a.items| && Match(x.items[j], a.items[l]);
        assert Found(a.items[l], b.items);
        var m :| 0 <= m < |b.items| && Match(a.items[l], b.items[m]);
        CarriesSound(x.items[j], y.items[i], a.items[l], b.items[m]);
      }
    }
  }

  // ------------------------------------------------------------------- it is necessary

  /** Adding a failure to an object that says nothing about success. */
  lemma {:induction false} FailureAdded(x: Value)
    requires x.Obj? && WellFormed(x) && x.fields != [] && !Has(x.fields, "ok")
    ensures var b := Obj(x.fields + [("ok", Bool(false))]); WellFormed(b) && Match(x, b) && !NotFailed(b)
  {
    var fields := x.fields + [("ok", Bool(false))];
    forall i, j | 0 <= i < j < |fields| ensures fields[i].0 != fields[j].0 {
      assert Has(x.fields, fields[i].0);
    }
    LookupField(fields, |x.fields|);
    forall i | 0 <= i < |x.fields|
      ensures Has(fields, x.fields[i].0) && Match(x.fields[i].1, Lookup(fields, x.fields[i].0))
    {
      LookupField(fields, i);
      assert fields[i] == x.fields[i];
      MatchReflexive(x.fields[i].1);
    }
  }

  /** One broken field breaks the chain between the objects. */
  lemma {:induction false} BrokenField(x: Value, y: Value, i: nat, j: nat, p: Value, q: Value)
    requires x.Obj? && WellFormed(x) && i < |x.fields| && WellFormed(p) && WellFormed(q)
    requires y.Obj? && j < |y.fields| && y.fields[j].0 == x.fields[i].0
    requires Match(x.fields[i].1, p) && Match(p, q) && !Match(y.fields[j].1, q)
    ensures var a, b := Obj(x.fields[i := (x.fields[i].0, p)]), Obj(x.fields[i := (x.fields[i].0, q)]);
      WellFormed(a) && WellFormed(b) && Match(x, a) && Match(a, b) && !Match(y, b)
  {
    FieldReplaced(x.fields, i, p);
    FieldReplaced(x.fields, i, q);
    forall l | 0 <= l < |x.fields| ensures Match(x.fields[l].1, x.fields[l].1) {
      MatchReflexive(x.fields[l].1);
    }
  }

  /** If x does not carry y, some b satisfies something that satisfies x, and does not satisfy y. */
  lemma {:induction false} Uncarried(x: Value, y: Value) returns (a: Value, b: Value)
    requires WellFormed(x) && !Carries(x, y)
    ensures WellFormed(a) && WellFormed(b) && Match(x, a) && Match(a, b) && !Match(y, b)
    decreases y, 0, 0
  {
    MatchReflexive(x);
    if !Match(y, x) {
      a, b := x, x;
    } else if Vacant(y) {
      if Vacant(x) {
        VacantBreaks();
        a, b := PARTIAL, FAILED;
      } else {
        FailureAdded(x);
        a, b := x, Obj(x.fields + [("ok", Bool(false))]);
      }
    } else if y.Obj? {
      a, b := UncarriedField(x, y);
    } else {
      a, b := UncarriedItem(x, y);
    }
  }

  lemma {:induction false} UncarriedField(x: Value, y: Value) returns (a: Value, b: Value)
    requires WellFormed(x) && x.Obj? && y.Obj? && !Vacant(y) && Match(y, x) && !Carries(x, y)
    ensures WellFormed(a) && WellFormed(b) && Match(x, a) && Match(a, b) && !Match(y, b)
    decreases y, -1, 0
  {
    var j :| 0 <= j < |y.fields| && !Carries(Lookup(x.fields, y.fields[j].0), y.fields[j].1);
    var key := y.fields[j].0;
    var i :| 0 <= i < |x.fields| && x.fields[i] == (key, Lookup(x.fields, key));
    var p, q := Uncarried(x.fields[i].1, y.fields[j].1);
    BrokenField(x, y, i, j, p, q);
    a, b := Obj(x.fields[i := (key, p)]), Obj(x.fields[i := (key, q)]);
  }

  lemma {:induction false} UncarriedItem(x: Value, y: Value) returns (a: Value, b: Value)
    requires WellFormed(x) && x.List? && y.List? && !Carries(x, y)
    ensures WellFormed(a) && WellFormed(b) && Match(x, a) && Match(a, b) && !Match(y, b)
    decreases y, -1, 0
  {
    var i :| 0 <= i < |y.items| && !CarriedBySome(x.items, y.items[i]);
    var ps, qs := UncarriedBy(x.items, y.items[i]);
    a, b := List(ps), List(qs);
    forall j | 0 <= j < |x.items| ensures Found(x.items[j], ps) && Found(ps[j], qs) {
    }
    assert !Found(y.items[i], qs);
  }

  /** No element carries y: element by element, a list of which nothing satisfies y. */
  lemma {:induction false} UncarriedBy(xs: seq<Value>, y: Value) returns (ps: seq<Value>, qs: seq<Value>)
    requires forall j :: 0 <= j < |xs| ==> WellFormed(xs[j]) && !Carries(xs[j], y)
    ensures |ps| == |qs| == |xs|
    ensures forall j :: 0 <= j < |xs| ==>
              WellFormed(ps[j]) && WellFormed(qs[j]) && Match(xs[j], ps[j]) && Match(ps[j], qs[j]) && !Match(y, qs[j])
    decreases y, 1, |xs|
  {
    ps, qs := [], [];
    if xs != [] {
      var n := |xs| - 1;
      ps, qs := UncarriedBy(xs[..n], y);
      var p, q := Uncarried(xs[n], y);
      ps, qs := ps + [p], qs + [q];
    }
  }

  /** Chaining from one contract to another can be read off the two. */
  lemma {:induction false} ChainsToIffCarries(x: Value, y: Value)
    requires WellFormed(x)
    ensures ChainsTo(x, y) <==> Carries(x, y)
  {
    if Carries(x, y) {
      forall a, b | WellFormed(a) && WellFormed(b) && Match(x, a) && Match(a, b) ensures Match(y, b) {
        CarriesSound(x, y, a, b);
      }
    } else {
      var a, b := Uncarried(x, y);
    }
  }

  /** A contract chains exactly when it carries itself. */
  lemma {:induction false} ChainsIffCarries(e: Value)
    requires WellFormed(e)
    ensures Chains(e) <==> Carries(e, e)
  {
    ChainsToIffCarries(e, e);
    assert Chains(e) <==> ChainsTo(e, e);
  }
}

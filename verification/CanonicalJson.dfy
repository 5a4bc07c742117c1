/** Canonical JSON texts: the same for the same value, whatever the insertion order, and only then. */
module CanonicalJson {
  import opened Prelude
  import opened Json
  import opened JsonText
  import opened JsonRoundTrip

  type Field = (string, Value)

  // ------------------------------------------------------------------- key ordering

  /** Lexicographic by code point, as Python compares strings. */
  predicate Before(a: string, b: string) {
    b != "" && (a == "" || a[0] < b[0] || (a[0] == b[0] && Before(a[1..], b[1..])))
  }

  lemma {:induction false} BeforeTotal(a: string, b: string)
    ensures a == b || Before(a, b) || Before(b, a)
  {
    if a != "" && b != "" && a[0] == b[0] {
      BeforeTotal(a[1..], b[1..]);
      if a[1..] == b[1..] {
        assert a == [a[0]] + a[1..] && b == [b[0]] + b[1..];
      }
    }
  }

  lemma {:induction false} BeforeTransitive(a: string, b: string, c: string)
    requires Before(a, b) && Before(b, c)
    ensures Before(a, c)
  {
    if a != "" && a[0] == b[0] == c[0] {
      BeforeTransitive(a[1..], b[1..], c[1..]);
    }
  }

  lemma {:induction false} BeforeIrreflexive(a: string)
    ensures !Before(a, a)
  {
    if a != "" {
      BeforeIrreflexive(a[1..]);
    }
  }

  function Insert(f: Field, s: seq<Field>): (r: seq<Field>) {
    if s == [] || Before(f.0, s[0].0) then [f] + s else [s[0]] + Insert(f, s[1..])
  }

  /** The members in the order of their keys. */
  function SortFields(s: seq<Field>): (r: seq<Field>) {
    if s == [] then [] else Insert(s[0], SortFields(s[1..]))
  }

  ghost predicate Increasing(s: seq<Field>) {
    forall i, j :: 0 <= i < j < |s| ==> Before(s[i].0, s[j].0)
  }

  lemma {:induction false} InsertMembers(f: Field, s: seq<Field>)
    ensures forall g :: g in Insert(f, s) <==> g == f || g in s
    ensures |Insert(f, s)| == |s| + 1
  {
    if s != [] && !Before(f.0, s[0].0) {
      InsertMembers(f, s[1..]);
      assert s == [s[0]] + s[1..];
    }
  }

  lemma {:induction false} SortMembers(s: seq<Field>)
    ensures forall g :: g in SortFields(s) <==> g in s
    ensures |SortFields(s)| == |s|
  {
    if s != [] {
      SortMembers(s[1..]);
      InsertMembers(s[0], SortFields(s[1..]));
      assert s == [s[0]] + s[1..];
    }
  }

  lemma {:induction false} IncreasingCons(f: Field, s: seq<Field>)
    requires Increasing(s) && forall g | g in s :: Before(f.0, g.0)
    ensures Increasing([f] + s)
  {
  }

  lemma {:induction false} InsertIncreasing(f: Field, s: seq<Field>)
    requires Increasing(s) && forall g | g in s :: g.0 != f.0
    ensures Increasing(Insert(f, s))
  {
    if s == [] {
    } else if Before(f.0, s[0].0) {
      forall g | g in s ensures Before(f.0, g.0) {
        var i :| 0 <= i < |s| && s[i] == g;
        if i > 0 {
          BeforeTransitive(f.0, s[0].0, g.0);
        }
      }
      IncreasingCons(f, s);
    } else {
      BeforeTotal(f.0, s[0].0);
      InsertIncreasing(f, s[1..]);
      InsertMembers(f, s[1..]);
      IncreasingCons(s[0], Insert(f, s[1..]));
    }
  }

  lemma {:induction false} SortIncreasing(s: seq<Field>)
    requires DistinctKeys(s)
    ensures Increasing(SortFields(s))
  {
    if s != [] {
      SortIncreasing(s[1..]);
      SortMembers(s[1..]);
      InsertIncreasing(s[0], SortFields(s[1..]));
    }
  }

  lemma {:induction false} IncreasingDistinct(s: seq<Field>)
    requires Increasing(s)
    ensures DistinctKeys(s)
  {
    forall i, j | 0 <= i < j < |s| ensures s[i].0 != s[j].0 {
      BeforeIrreflexive(s[i].0);
    }
  }

  /** The first key of an increasing list is the least. */
  lemma {:induction false} LeastFirst(a: seq<Field>, b: seq<Field>)
    requires a != [] && b != [] && Increasing(a) && Increasing(b)
    requires a[0] in b && b[0] in a
    ensures a[0] == b[0]
  {
    var i :| 0 <= i < |b| && b[i] == a[0];
    var j :| 0 <= j < |a| && a[j] == b[0];
    if i > 0 && j > 0 {
      BeforeTransitive(a[0].0, b[0].0, a[0].0);
      BeforeIrreflexive(a[0].0);
    }
  }

  lemma {:induction false} FirstMember(s: seq<Field>)
    requires s != []
    ensures exists f :: f in s && f == s[0]
  {
    assert s[0] in s;
  }

  /** An increasing list is determined by its members. */
  lemma {:induction false} IncreasingUnique(a: seq<Field>, b: seq<Field>)
    requires Increasing(a) && Increasing(b) && forall f :: f in a <==> f in b
    ensures a == b
  {
    if a == [] {
      if b != [] {
        FirstMember(b);
      }
    } else {
      assert a[0] in a;
      assert b != [];
      assert b[0] in b;
      LeastFirst(a, b);
      TailMembers(a);
      TailMembers(b);
      IncreasingUnique(a[1..], b[1..]);
    }
  }

  lemma {:induction false} TailMembers(a: seq<Field>)
    requires a != [] && Increasing(a)
    ensures forall f :: f in a[1..] <==> f in a && f != a[0]
  {
    IncreasingDistinct(a);
    assert a == [a[0]] + a[1..];
  }

  // ------------------------------------------------------------------- normal values

  /** The value with the members of every object in the order of their keys. */
  function Normal(v: Value): (r: Value)
    decreases v
  {
    match v
    case List(items) => List(seq(|items|, i requires 0 <= i < |items| => Normal(items[i])))
    case Obj(fields) => Obj(SortFields(seq(|fields|,
      i requires 0 <= i < |fields| => (fields[i].0, Normal(fields[i].1)))))
    case _ => v
  }

  function NormalFields(fields: seq<Field>): (r: seq<Field>)
    ensures |r| == |fields| && forall i :: 0 <= i < |fields| ==> r[i] == (fields[i].0, Normal(fields[i].1))
  {
    seq(|fields|, i requires 0 <= i < |fields| => (fields[i].0, Normal(fields[i].1)))
  }

  lemma {:induction false} NormalObject(fields: seq<Field>)
    ensures Normal(Obj(fields)) == Obj(SortFields(NormalFields(fields)))
  {
    assert seq(|fields|, i requires 0 <= i < |fields| => (fields[i].0, Normal(fields[i].1))) == NormalFields(fields);
  }

  /** The text that is hashed. */
  function Canonical(v: Value): (text: string) {
    Write(Normal(v))
  }

  /** Equal up to the insertion order of object members. */
  predicate SameValue(v: Value, w: Value)
    decreases v, 0
  {
    if v.List? && w.List? then
      |v.items| == |w.items| && forall i :: 0 <= i < |v.items| ==> SameValue(v.items[i], w.items[i])
    else if v.Obj? && w.Obj? then
      && (forall i :: 0 <= i < |v.fields| ==> SomeRight(v, i, w.fields))
      && (forall j :: 0 <= j < |w.fields| ==> SomeLeft(v, w.fields[j]))
    else v == w
  }

  predicate SomeRight(v: Value, i: nat, fields: seq<Field>)
    requires v.Obj? && i < |v.fields|
    decreases v.fields[i].1, 1
  {
    exists j :: 0 <= j < |fields| && fields[j].0 == v.fields[i].0 && SameValue(v.fields[i].1, fields[j].1)
  }

  predicate SomeLeft(v: Value, field: Field)
    requires v.Obj?
    decreases v, -1
  {
    exists i :: 0 <= i < |v.fields| && v.fields[i].0 == field.0 && SameValue(v.fields[i].1, field.1)
  }

  // ---------------------------------------------- equal normal forms mean equal values

  lemma {:induction false} NormalEqualObjects(v: Value, w: Value)
    requires v.Obj? && w.Obj? && WellFormed(v) && WellFormed(w) && Normal(v) == Normal(w)
    ensures SameValue(v, w)
    decreases v, 0
  {
    var f, g := NormalFields(v.fields), NormalFields(w.fields);
    NormalObject(v.fields);
    NormalObject(w.fields);
    SortMembers(f);
    SortMembers(g);
    forall i | 0 <= i < |v.fields| ensures SomeRight(v, i, w.fields) {
      assert f[i] in f;
      assert f[i] in g;
      var j :| 0 <= j < |g| && g[j] == f[i];
      NormalEqual(v.fields[i].1, w.fields[j].1);
    }
    forall j | 0 <= j < |w.fields| ensures SomeLeft(v, w.fields[j]) {
      assert g[j] in g;
      assert g[j] in f;
      var i :| 0 <= i < |f| && f[i] == g[j];
      NormalEqual(v.fields[i].1, w.fields[j].1);
    }
  }

  lemma {:induction false} NormalEqual(v: Value, w: Value)
    requires WellFormed(v) && WellFormed(w) && Normal(v) == Normal(w)
    ensures SameValue(v, w)
    decreases v, 1
  {
    if v.Obj? && w.Obj? {
      NormalEqualObjects(v, w);
    } else if v.List? && w.List? {
      forall i | 0 <= i < |v.items| ensures SameValue(v.items[i], w.items[i]) {
        assert Normal(v).items[i] == Normal(w).items[i];
        NormalEqual(v.items[i], w.items[i]);
      }
    }
  }

  lemma {:induction false} SameObjectsNormal(v: Value, w: Value)
    requires v.Obj? && w.Obj? && WellFormed(v) && WellFormed(w) && SameValue(v, w)
    ensures Normal(v) == Normal(w)
    decreases v, 0
  {
    var f, g := NormalFields(v.fields), NormalFields(w.fields);
    forall x | x in f ensures x in g {
      var i :| 0 <= i < |f| && f[i] == x;
      assert SomeRight(v, i, w.fields);
      var j :| 0 <= j < |w.fields| && w.fields[j].0 == v.fields[i].0 && SameValue(v.fields[i].1, w.fields[j].1);
      SameNormal(v.fields[i].1, w.fields[j].1);
      assert g[j] == x;
    }
    forall x | x in g ensures x in f {
      var j :| 0 <= j < |g| && g[j] == x;
      assert SomeLeft(v, w.fields[j]);
      var i :| 0 <= i < |v.fields| && v.fields[i].0 == w.fields[j].0 && SameValue(v.fields[i].1, w.fields[j].1);
      SameNormal(v.fields[i].1, w.fields[j].1);
      assert f[i] == x;
    }
    SameMembersSame(v.fields, w.fields);
  }

  lemma {:induction false} SameMembersSame(a: seq<Field>, b: seq<Field>)
    requires DistinctKeys(a) && DistinctKeys(b)
    requires forall x :: x in NormalFields(a) <==> x in NormalFields(b)
    ensures Normal(Obj(a)) == Normal(Obj(b))
  {
    NormalObject(a);
    NormalObject(b);
    SortMembers(NormalFields(a));
    SortMembers(NormalFields(b));
    SortIncreasing(NormalFields(a));
    SortIncreasing(NormalFields(b));
    IncreasingUnique(SortFields(NormalFields(a)), SortFields(NormalFields(b)));
  }

  lemma {:induction false} SameNormal(v: Value, w: Value)
    requires WellFormed(v) && WellFormed(w) && SameValue(v, w)
    ensures Normal(v) == Normal(w)
    decreases v, 1
  {
    if v.Obj? && w.Obj? {
      SameObjectsNormal(v, w);
    } else if v.List? && w.List? {
      forall i | 0 <= i < |v.items| ensures Normal(v.items[i]) == Normal(w.items[i]) {
        SameNormal(v.items[i], w.items[i]);
      }
    }
  }

  // ------------------------------------------------------------------ main results

  /** A reader of the canonical text recovers the value, with the members in key order. */
  lemma {:induction false} ParseCanonical(v: Value)
    ensures Parse(Canonical(v)) == Some(Normal(v))
  {
    ParseWrite(Normal(v));
  }

  /** Putting the members in key order does not change the value. */
  lemma {:induction false} NormalSame(v: Value)
    requires WellFormed(v)
    ensures SameValue(v, Normal(v)) && WellFormed(Normal(v))
    decreases v, 1
  {
    match v
    case List(items) =>
      forall i | 0 <= i < |items| ensures SameValue(items[i], Normal(items[i])) && WellFormed(Normal(items[i])) {
        NormalSame(items[i]);
      }
    case Obj(fields) => NormalSameObject(v);
    case _ =>
  }

  lemma {:induction false} NormalSameObject(v: Value)
    requires v.Obj? && WellFormed(v)
    ensures SameValue(v, Normal(v)) && WellFormed(Normal(v))
    decreases v, 0
  {
    var f := NormalFields(v.fields);
    var w := Normal(v);
    NormalObject(v.fields);
    SortMembers(f);
    SortIncreasing(f);
    IncreasingDistinct(w.fields);
    forall i | 0 <= i < |v.fields| ensures SomeRight(v, i, w.fields) {
      assert f[i] in f;
      var j :| 0 <= j < |w.fields| && w.fields[j] == f[i];
      NormalSame(v.fields[i].1);
    }
    forall j | 0 <= j < |w.fields| ensures SomeLeft(v, w.fields[j]) && WellFormed(w.fields[j].1) {
      assert w.fields[j] in w.fields;
      var i :| 0 <= i < |f| && f[i] == w.fields[j];
      NormalSame(v.fields[i].1);
    }
  }

  /** Two values have the same canonical text if and only if they are equal up to insertion order. */
  lemma {:induction false} SameTextIffSameValue(v: Value, w: Value)
    requires WellFormed(v) && WellFormed(w)
    ensures Canonical(v) == Canonical(w) <==> SameValue(v, w)
  {
    if Canonical(v) == Canonical(w) {
      ParseCanonical(v);
      ParseCanonical(w);
      NormalEqual(v, w);
    } else if SameValue(v, w) {
      SameNormal(v, w);
    }
  }

  // ---------------------------------------------------------------- command fingerprints

  datatype Command = Command(
    id: string, kind: string, mission: string, session: Option<string>, expectedSeq: int,
    actorKind: string, actorId: string, payload: seq<Field>, schemaVersion: int,
    idempotencyKey: Option<string>, correlation: Option<string>)

  function SessionValue(c: Command): (v: Value) {
    if c.session.Some? then Str(c.session.value) else Null
  }

  function ActorValue(c: Command): (v: Value) {
    Obj([("type", Str(c.actorKind)), ("id", Str(c.actorId))])
  }

  /** The seven fields of a command that its fingerprint covers. */
  function Covered(c: Command): (v: Value) {
    Obj([("type", Str(c.kind)), ("mission_id", Str(c.mission)), ("session_id", SessionValue(c)),
         ("expected_seq", Int(c.expectedSeq)), ("actor", ActorValue(c)), ("payload", Obj(c.payload)),
         ("schema_version", Int(c.schemaVersion))])
  }

  /** What is hashed into the command's fingerprint. */
  function Preimage(c: Command): (text: string) {
    Canonical(Covered(c))
  }

  /** Objects with the same distinct keys in the same places are equal when their members are. */
  lemma {:induction false} SameByPlace(a: seq<Field>, b: seq<Field>)
    requires |a| == |b| && DistinctKeys(a) && forall i :: 0 <= i < |a| ==> a[i].0 == b[i].0
    ensures SameValue(Obj(a), Obj(b)) <==> forall i :: 0 <= i < |a| ==> SameValue(a[i].1, b[i].1)
  {
    if SameValue(Obj(a), Obj(b)) {
      forall i | 0 <= i < |a| ensures SameValue(a[i].1, b[i].1) {
        assert SomeRight(Obj(a), i, b);
      }
    } else if forall i :: 0 <= i < |a| ==> SameValue(a[i].1, b[i].1) {
      forall i | 0 <= i < |a| ensures SomeRight(Obj(a), i, b) && SomeLeft(Obj(a), b[i]) {
        assert b[i].0 == a[i].0 && SameValue(a[i].1, b[i].1);
      }
    }
  }

  lemma {:induction false} CoveredDistinct(c: Command)
    ensures DistinctKeys(Covered(c).fields) && DistinctKeys(ActorValue(c).fields)
  {
    var f := Covered(c).fields;
    assert |f[0].0| == 4 && |f[1].0| == 10 && |f[2].0| == 10 && |f[3].0| == 12;
    assert |f[4].0| == 5 && |f[5].0| == 7 && |f[6].0| == 14;
    assert f[1].0[0] == 'm' && f[2].0[0] == 's';
  }

  /**
   Two commands share a fingerprint preimage exactly when their type, mission, session, expected
   sequence number, actor, payload and schema version agree; command id, idempotency key and
   correlation id do not matter.
   */
  lemma {:induction false} SamePreimage(c: Command, d: Command)
    requires WellFormed(Obj(c.payload)) && WellFormed(Obj(d.payload))
    ensures Preimage(c) == Preimage(d) <==>
            && c.kind == d.kind && c.mission == d.mission && c.session == d.session
            && c.expectedSeq == d.expectedSeq && c.actorKind == d.actorKind && c.actorId == d.actorId
            && SameValue(Obj(c.payload), Obj(d.payload)) && c.schemaVersion == d.schemaVersion
  {
    CoveredWellFormed(c);
    CoveredWellFormed(d);
    SameTextIffSameValue(Covered(c), Covered(d));
    CoveredSame(c, d);
    ActorSame(c, d);
  }

  lemma {:induction false} CoveredWellFormed(c: Command)
    requires WellFormed(Obj(c.payload))
    ensures WellFormed(Covered(c))
  {
    CoveredDistinct(c);
    var f := Covered(c).fields;
    assert WellFormed(f[4].1) && WellFormed(f[5].1);
  }

  lemma {:induction false} CoveredSame(c: Command, d: Command)
    ensures SameValue(Covered(c), Covered(d)) <==>
            && SameValue(Str(c.kind), Str(d.kind)) && SameValue(Str(c.mission), Str(d.mission))
            && SameValue(SessionValue(c), SessionValue(d)) && SameValue(Int(c.expectedSeq), Int(d.expectedSeq))
            && SameValue(ActorValue(c), ActorValue(d)) && SameValue(Obj(c.payload), Obj(d.payload))
            && SameValue(Int(c.schemaVersion), Int(d.schemaVersion))
  {
    CoveredDistinct(c);
    SameByPlace(Covered(c).fields, Covered(d).fields);
    SevenPlaces(Covered(c).fields, Covered(d).fields);
  }

  lemma {:induction false} ActorSame(c: Command, d: Command)
    ensures SameValue(ActorValue(c), ActorValue(d)) <==> c.actorKind == d.actorKind && c.actorId == d.actorId
  {
    CoveredDistinct(c);
    SameByPlace(ActorValue(c).fields, ActorValue(d).fields);
    TwoPlaces(ActorValue(c).fields, ActorValue(d).fields);
  }

  lemma {:induction false} SevenPlaces(a: seq<Field>, b: seq<Field>)
    requires |a| == |b| == 7
    ensures (forall i :: 0 <= i < |a| ==> SameValue(a[i].1, b[i].1)) <==>
            && SameValue(a[0].1, b[0].1) && SameValue(a[1].1, b[1].1) && SameValue(a[2].1, b[2].1)
            && SameValue(a[3].1, b[3].1) && SameValue(a[4].1, b[4].1) && SameValue(a[5].1, b[5].1)
            && SameValue(a[6].1, b[6].1)
  {
  }

  lemma {:induction false} TwoPlaces(a: seq<Field>, b: seq<Field>)
    requires |a| == |b| == 2
    ensures (forall i :: 0 <= i < |a| ==> SameValue(a[i].1, b[i].1)) <==>
            SameValue(a[0].1, b[0].1) && SameValue(a[1].1, b[1].1)
  {
  }
}

/** JSON values as Python holds them: objects keep insertion order, and there are no floats. */
module Json {

  datatype Value =
    | Null
    | Bool(flag: bool)
    | Int(number: int)
    | Str(text: string)
    | List(items: seq<Value>)
    | Obj(fields: seq<(string, Value)>)

  predicate Has(fields: seq<(string, Value)>, key: string) {
    exists i :: 0 <= i < |fields| && fields[i].0 == key
  }

  function Lookup(fields: seq<(string, Value)>, key: string): (v: Value)
    requires Has(fields, key)
    ensures exists i :: 0 <= i < |fields| && fields[i] == (key, v)
  {
    if fields[0].0 == key then fields[0].1 else Lookup(fields[1..], key)
  }

  predicate DistinctKeys(fields: seq<(string, Value)>) {
    forall i, j :: 0 <= i < j < |fields| ==> fields[i].0 != fields[j].0
  }

  /** A Python dictionary never repeats a key. */
  predicate WellFormed(v: Value) {
    match v
    case List(items) => forall i :: 0 <= i < |items| ==> WellFormed(items[i])
    case Obj(fields) => DistinctKeys(fields) && forall i :: 0 <= i < |fields| ==> WellFormed(fields[i].1)
    case _ => true
  }

  lemma {:induction false} LookupField(fields: seq<(string, Value)>, i: nat)
    requires DistinctKeys(fields) && i < |fields|
    ensures Has(fields, fields[i].0) && Lookup(fields, fields[i].0) == fields[i].1
  {
    var key := fields[i].0;
    assert Has(fields, key);
    var j :| 0 <= j < |fields| && fields[j] == (key, Lookup(fields, key));
  }
}

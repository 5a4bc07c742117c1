/** The text ids of attempts, and why two attempts never share one. */
module AttemptNames {
  import opened Prelude
  import opened EventStream
  import opened Dispatcher
  import opened DispatcherInvariants

  /** A first attempt is named after its task, a resumed one after its root attempt. */
  function AttemptName(id: AttemptId): (name: string) {
    var root := "g2:attempt:" + id.task + ":1";
    if id.ordinal == 1 then root else root + ":resume:" + Decimal(id.ordinal)
  }

  /** A text splits in one way only at a colon that digits follow. */
  lemma {:induction false} LastColon(front: string, digits: string, other: string, otherDigits: string)
    requires front + ":" + digits == other + ":" + otherDigits
    requires AllDigits(digits) && AllDigits(otherDigits)
    ensures front == other && digits == otherDigits
  {
    ColonNotLater(front, digits, other, otherDigits);
    ColonNotLater(other, otherDigits, front, digits);
    var text := front + ":" + digits;
    assert text[..|front|] == front && text[|front| + 1..] == digits;
    assert text[..|other|] == other && text[|other| + 1..] == otherDigits;
  }

  lemma {:induction false} ColonNotLater(front: string, digits: string, other: string, otherDigits: string)
    requires front + ":" + digits == other + ":" + otherDigits && AllDigits(digits)
    ensures |other| <= |front|
  {
    assert (other + ":" + otherDigits)[|other|] == ':';
    assert forall i | |front| < i < |front + ":" + digits| :: (front + ":" + digits)[i] == digits[i - |front| - 1];
  }

  /** Everything of the name but its decimal suffix. */
  function NameStem(id: AttemptId): (stem: string) {
    if id.ordinal == 1 then "g2:attempt:" + id.task else "g2:attempt:" + id.task + ":1:resume"
  }

  lemma {:induction false} NameSplits(id: AttemptId)
    ensures AttemptName(id) == NameStem(id) + ":" + Decimal(id.ordinal)
  {
    assert Decimal(1) == "1";
  }

  /** Different attempts have different names, whatever characters their task ids contain. */
  lemma {:induction false} NamesInjective(a: AttemptId, b: AttemptId)
    requires AttemptName(a) == AttemptName(b)
    ensures a == b
  {
    NameSplits(a);
    NameSplits(b);
    LastColon(NameStem(a), Decimal(a.ordinal), NameStem(b), Decimal(b.ordinal));
    DecimalInjective(a.ordinal, b.ordinal);
    var prefix, suffix := |"g2:attempt:"|, |":1:resume"|;
    var stem := NameStem(a);
    if a.ordinal == 1 {
      assert stem[prefix..] == a.task && stem[prefix..] == b.task;
    } else {
      assert stem[prefix..|stem| - suffix] == a.task && stem[prefix..|stem| - suffix] == b.task;
    }
  }

  /** In every run the attempts on record have pairwise distinct text ids. */
  lemma {:induction false} AttemptTextsDistinct(steps: seq<Step>, a: Attempt, b: Attempt)
    requires a in Run(EMPTY, steps).attempts && b in Run(EMPTY, steps).attempts
    requires AttemptName(a.id) == AttemptName(b.id)
    ensures a == b
  {
    RunConsistent(steps);
    NamesInjective(a.id, b.id);
    AttemptNamesDistinct(Run(EMPTY, steps), a, b);
  }
}

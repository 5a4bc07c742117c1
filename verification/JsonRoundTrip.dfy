/** The reader undoes the writer. */
module JsonRoundTrip {
  import opened Prelude
  import opened Json
  import opened JsonText

  /** A text after which a number cannot go on. */
  predicate Delimited(rest: string) {
    rest != "" ==> !('0' <= rest[0] <= '9') && rest[0] != '.' && rest[0] != 'e' && rest[0] != 'E'
  }

  lemma {:induction false} Cat3(a: string, b: string, c: string)
    ensures (a + b) + c == a + (b + c)
  {
  }

  lemma {:induction false} ControlReadBack(c: char, rest: string)
    requires c < ' '
    ensures ReadEscape(("u00" + [HexDigit(c as int / 16), HexDigit(c as int % 16)]) + rest) == Some((c, rest))
  {
    var s := ("u00" + [HexDigit(c as int / 16), HexDigit(c as int % 16)]) + rest;
    assert s[1..][..4] == "00" + [HexDigit(c as int / 16), HexDigit(c as int % 16)];
    assert HexValue(s[1..][2]) == Some(c as int / 16) && HexValue(s[1..][3]) == Some(c as int % 16);
    assert Hex4(s[1..]) == Some(c as int);
    assert s[5..] == rest;
  }

  lemma {:induction false} ControlCharReadBack(c: char, rest: string)
    requires c < ' ' && EscapeChar(c) == "\\u00" + [HexDigit(c as int / 16), HexDigit(c as int % 16)]
    ensures ReadChars(EscapeChar(c) + rest) == Prepend(c, ReadChars(rest))
  {
    var s := EscapeChar(c) + rest;
    ControlReadBack(c, rest);
    assert s[1..] == ("u00" + [HexDigit(c as int / 16), HexDigit(c as int % 16)]) + rest;
  }

  lemma {:induction false} EscapeReadBack(c: char, rest: string)
    ensures ReadChars(EscapeChar(c) + rest) == Prepend(c, ReadChars(rest))
  {
    var s := EscapeChar(c) + rest;
    if c == '"' || c == '\\' || c == '\U{8}' || c == '\U{c}' || c == '\n' || c == '\r' || c == '\t' {
      assert s[1..] == [EscapeChar(c)[1]] + rest;
      assert s[1..][1..] == rest;
    } else if c < ' ' {
      ControlCharReadBack(c, rest);
    } else {
      assert s[1..] == rest;
    }
  }

  lemma {:induction false} CharsReadBack(text: string, rest: string)
    ensures ReadChars(EscapeChars(text) + rest) == Some((text, rest))
  {
    if text == "" {
      assert (EscapeChars(text) + rest)[1..] == rest;
    } else {
      CharsReadBack(text[1..], rest);
      Cat3(EscapeChar(text[0]), EscapeChars(text[1..]), rest);
      EscapeReadBack(text[0], EscapeChars(text[1..]) + rest);
      assert [text[0]] + text[1..] == text;
    }
  }

  lemma {:induction false} DigitsReadBack(digits: string, rest: string)
    requires AllDigits(digits) && Delimited(rest)
    ensures TakeDigits(digits + rest) == digits
  {
    if digits == "" {
      assert digits + rest == rest;
    } else {
      DigitsReadBack(digits[1..], rest);
      assert (digits + rest)[1..] == digits[1..] + rest;
      assert [digits[0]] + digits[1..] == digits;
    }
  }

  lemma {:induction false} NaturalReadBack(n: nat, rest: string)
    requires Delimited(rest)
    ensures ReadNumber(Decimal(n) + rest) == Some((Int(n), rest))
  {
    DigitsReadBack(Decimal(n), rest);
    DecimalRoundTrip(n);
    assert (Decimal(n) + rest)[|Decimal(n)|..] == rest;
  }

  lemma {:induction false} NegativeReadBack(n: nat, rest: string)
    requires Delimited(rest)
    ensures ReadNumber((['-'] + Decimal(n)) + rest) == Some((Int(0 - n), rest))
  {
    DigitsReadBack(Decimal(n), rest);
    DecimalRoundTrip(n);
    SignedNumber((['-'] + Decimal(n)) + rest, Decimal(n), rest);
  }

  lemma {:induction false} SignedNumber(s: string, digits: string, rest: string)
    requires s == (['-'] + digits) + rest && AllDigits(digits) && TakeDigits(digits + rest) == digits != ""
    requires Delimited(rest) && (|digits| > 1 ==> digits[0] != '0')
    ensures ReadNumber(s) == Some((Int(0 - DecimalValue(digits)), rest))
  {
    assert s[1..] == digits + rest;
    assert (digits + rest)[|digits|..] == rest;
  }

  lemma {:induction false} ReadIsNumber(s: string)
    requires s != "" && (s[0] == '-' || '0' <= s[0] <= '9')
    ensures Read(s) == ReadNumber(s)
  {
  }

  lemma {:induction false} IntStarts(n: int, rest: string)
    ensures var s := WriteInt(n) + rest; s != "" && (s[0] == '-' || '0' <= s[0] <= '9')
  {
    assert (WriteInt(n) + rest)[0] == WriteInt(n)[0];
  }

  lemma {:induction false} IntReadBack(n: int, rest: string)
    requires Delimited(rest)
    ensures Read(WriteInt(n) + rest) == Some((Int(n), rest))
  {
    IntStarts(n, rest);
    ReadIsNumber(WriteInt(n) + rest);
    if n < 0 {
      NegativeReadBack(0 - n, rest);
    } else {
      NaturalReadBack(n, rest);
    }
  }

  lemma {:induction false} WordReadBack(v: Value, rest: string)
    requires v.Null? || v.Bool?
    ensures Read(Write(v) + rest) == Some((v, rest))
  {
    var s := Write(v) + rest;
    assert s[..|Write(v)|] == Write(v) && s[|Write(v)|..] == rest;
    if v == Bool(false) {
      assert s[..4] == "fals";
    } else if v == Bool(true) {
      assert s[..4] == "true";
    }
  }

  lemma {:induction false} StringReadBack(text: string, rest: string)
    ensures Read(WriteString(text) + rest) == Some((Str(text), rest))
  {
    CharsReadBack(text, rest);
    assert (WriteString(text) + rest)[1..] == EscapeChars(text) + rest;
  }

  /** What a written value starts with: never a blank, a bracket that closes, or nothing. */
  lemma {:induction false} WriteStarts(v: Value)
    ensures Write(v) != "" && !Blank(Write(v)[0]) && Write(v)[0] != ']' && Write(v)[0] != '}'
  {
  }

  /** Reading a value that was written gives it back, and leaves what follows it. */
  lemma {:induction false} ReadBack(v: Value, rest: string)
    requires Delimited(rest)
    ensures Read(Write(v) + rest) == Some((v, rest))
    decreases v, Width(v) + 1
  {
    match v
    case Int(n) => IntReadBack(n, rest);
    case Str(text) => StringReadBack(text, rest);
    case List(items) => ListReadBack(v, rest);
    case Obj(fields) => ObjectReadBack(v, rest);
    case _ => WordReadBack(v, rest);
  }

  lemma {:induction false} ListReadBack(v: Value, rest: string)
    requires v.List? && Delimited(rest)
    ensures Read(Write(v) + rest) == Some((v, rest))
    decreases v, Width(v), 1
  {
    if v.items == [] {
      EmptyListReadBack(rest);
    } else {
      ItemsReadBack(v, 0, rest);
      WriteStarts(v.items[0]);
      assert v.items[0..] == v.items;
      DropFirst('[', WriteItems(v, 0), rest);
      FirstOf(Write(v.items[0]), WriteItems(v, 0)[|Write(v.items[0])|..], rest);
      assert WriteItems(v, 0) == Write(v.items[0]) + WriteItems(v, 0)[|Write(v.items[0])|..];
      BracketedItems((['['] + WriteItems(v, 0)) + rest, v.items, rest);
    }
  }

  lemma {:induction false} FirstOf(a: string, b: string, c: string)
    requires a != ""
    ensures ((a + b) + c) != "" && ((a + b) + c)[0] == a[0]
  {
  }

  lemma {:induction false} EmptyListReadBack(rest: string)
    ensures Read("[]" + rest) == Some((List([]), rest))
  {
    assert ("[]" + rest)[1..] == [']'] + rest;
    assert ([']'] + rest)[1..] == rest;
  }

  lemma {:induction false} BracketedItems(s: string, items: seq<Value>, rest: string)
    requires |s| > 1 && s[0] == '[' && !Blank(s[1]) && s[1] != ']' && ReadItems(s[1..]) == Some((items, rest))
    ensures Read(s) == Some((List(items), rest))
  {
  }

  lemma {:induction false} BracedFields(s: string, fields: seq<(string, Value)>, rest: string)
    requires |s| > 1 && s[0] == '{' && !Blank(s[1]) && s[1] != '}' && ReadFields(s[1..]) == Some((fields, rest))
    ensures Read(s) == Some((Obj(fields), rest))
  {
  }

  lemma {:induction false} EmptyObjectReadBack(rest: string)
    ensures Read("{}" + rest) == Some((Obj([]), rest))
  {
    assert ("{}" + rest)[1..] == ['}'] + rest;
    assert (['}'] + rest)[1..] == rest;
  }

  lemma {:induction false} ItemsEnd(s: string, v: Value, t: string)
    requires Read(s) == Some((v, t)) && t != "" && t[0] == ']'
    ensures ReadItems(s) == Some(([v], t[1..]))
  {
  }

  lemma {:induction false} ItemsMore(s: string, v: Value, t: string, more: seq<Value>, rest: string)
    requires Read(s) == Some((v, t)) && t != "" && t[0] == ',' && ReadItems(t[1..]) == Some((more, rest))
    ensures ReadItems(s) == Some(([v] + more, rest))
  {
  }

  lemma {:induction false} ItemsLast(value: string, v: Value, rest: string)
    requires Read(value + ("]" + rest)) == Some((v, "]" + rest))
    ensures ReadItems((value + "]") + rest) == Some(([v], rest))
  {
    Cat3(value, "]", rest);
    assert ("]" + rest)[1..] == rest;
    ItemsEnd(value + ("]" + rest), v, "]" + rest);
  }

  lemma {:induction false} ItemsNext(value: string, v: Value, next: string, more: seq<Value>, rest: string)
    requires Read(value + (([','] + next) + rest)) == Some((v, ([','] + next) + rest))
    requires ReadItems(next + rest) == Some((more, rest))
    ensures ReadItems((value + ([','] + next)) + rest) == Some(([v] + more, rest))
  {
    var t := ([','] + next) + rest;
    Cat3(value, [','] + next, rest);
    assert t[1..] == next + rest;
    ItemsMore(value + t, v, t, more, rest);
  }

  lemma {:induction false} ItemsReadBack(v: Value, i: nat, rest: string)
    requires v.List? && i < |v.items| && Delimited(rest)
    ensures ReadItems(WriteItems(v, i) + rest) == Some((v.items[i..], rest))
    decreases v, |v.items| - i, 0
  {
    SplitAt(v.items, i);
    if i + 1 == |v.items| {
      ReadBack(v.items[i], "]" + rest);
      ItemsLast(Write(v.items[i]), v.items[i], rest);
    } else {
      var next := WriteItems(v, i + 1);
      ReadBack(v.items[i], ([','] + next) + rest);
      ItemsReadBack(v, i + 1, rest);
      ItemsNext(Write(v.items[i]), v.items[i], next, v.items[i + 1..], rest);
    }
  }

  lemma {:induction false} ObjectReadBack(v: Value, rest: string)
    requires v.Obj? && Delimited(rest)
    ensures Read(Write(v) + rest) == Some((v, rest))
    decreases v, Width(v), 1
  {
    if v.fields == [] {
      EmptyObjectReadBack(rest);
    } else {
      FieldsReadBack(v, 0, rest);
      assert v.fields[0..] == v.fields;
      DropFirst('{', WriteFields(v, 0), rest);
      assert WriteFields(v, 0)[0] == '"';
      BracedFields((['{'] + WriteFields(v, 0)) + rest, v.fields, rest);
    }
  }

  /** A name, a colon and a value. */
  lemma {:induction false} NamedReadBack(name: string, text: string, value: Value, tail: string)
    requires Read(text) == Some((value, tail))
    ensures ReadMember(WriteString(name) + ([':'] + text)) == Some(((name, value), tail))
  {
    CharsReadBack(name, [':'] + text);
    DropFirst('"', EscapeChars(name), [':'] + text);
    assert ([':'] + text)[1..] == text;
    MemberIs(WriteString(name) + ([':'] + text), name, [':'] + text, value, tail);
  }

  lemma {:induction false} DropFirst(c: char, a: string, b: string)
    ensures (([c] + a) + b)[0] == c && (([c] + a) + b)[1..] == a + b
  {
  }

  lemma {:induction false} MemberIs(s: string, name: string, u: string, value: Value, rest: string)
    requires s != "" && s[0] == '"' && ReadChars(s[1..]) == Some((name, u))
    requires u != "" && u[0] == ':' && Read(u[1..]) == Some((value, rest))
    ensures ReadMember(s) == Some(((name, value), rest))
  {
  }

  lemma {:induction false} FieldsEnd(s: string, f: (string, Value), t: string)
    requires ReadMember(s) == Some((f, t)) && t != "" && t[0] == '}'
    ensures ReadFields(s) == Some(([f], t[1..]))
  {
  }

  lemma {:induction false} FieldsMore(s: string, f: (string, Value), t: string, more: seq<(string, Value)>,
      rest: string)
    requires ReadMember(s) == Some((f, t)) && t != "" && t[0] == ',' && ReadFields(t[1..]) == Some((more, rest))
    ensures ReadFields(s) == Some(([f] + more, rest))
  {
  }

  lemma {:induction false} FieldsLast(name: string, value: string, f: (string, Value), rest: string)
    requires ReadMember(name + ([':'] + (value + ("}" + rest)))) == Some((f, "}" + rest))
    ensures ReadFields((name + ([':'] + (value + "}"))) + rest) == Some(([f], rest))
  {
    MemberText(name, value, "}", rest);
    assert ("}" + rest)[1..] == rest;
    FieldsEnd(name + ([':'] + (value + ("}" + rest))), f, "}" + rest);
  }

  lemma {:induction false} FieldsNext(name: string, value: string, f: (string, Value), next: string,
                                      more: seq<(string, Value)>, rest: string)
    requires ReadMember(name + ([':'] + (value + (([','] + next) + rest)))) == Some((f, ([','] + next) + rest))
    requires ReadFields(next + rest) == Some((more, rest))
    ensures ReadFields((name + ([':'] + (value + ([','] + next)))) + rest) == Some(([f] + more, rest))
  {
    var t := ([','] + next) + rest;
    MemberText(name, value, [','] + next, rest);
    assert t[1..] == next + rest;
    FieldsMore(name + ([':'] + (value + t)), f, t, more, rest);
  }

  lemma {:induction false} SplitAt<T>(s: seq<T>, i: nat)
    requires i < |s|
    ensures s[i..] == [s[i]] + s[i + 1..]
    ensures i + 1 == |s| ==> s[i..] == [s[i]]
  {
  }

  lemma {:induction false} FieldsReadBack(v: Value, i: nat, rest: string)
    requires v.Obj? && i < |v.fields| && Delimited(rest)
    ensures ReadFields(WriteFields(v, i) + rest) == Some((v.fields[i..], rest))
    decreases v, |v.fields| - i, 0
  {
    var f, name, value := v.fields[i], WriteString(v.fields[i].0), Write(v.fields[i].1);
    SplitAt(v.fields, i);
    if i + 1 == |v.fields| {
      ReadBack(f.1, "}" + rest);
      NamedReadBack(f.0, value + ("}" + rest), f.1, "}" + rest);
      FieldsLast(name, value, f, rest);
    } else {
      var next := WriteFields(v, i + 1);
      ReadBack(f.1, ([','] + next) + rest);
      NamedReadBack(f.0, value + (([','] + next) + rest), f.1, ([','] + next) + rest);
      FieldsReadBack(v, i + 1, rest);
      FieldsNext(name, value, f, next, v.fields[i + 1..], rest);
    }
  }

  lemma {:induction false} MemberText(name: string, value: string, tail: string, rest: string)
    ensures (name + ([':'] + (value + tail))) + rest == name + ([':'] + (value + (tail + rest)))
  {
    Cat3(name, [':'] + (value + tail), rest);
    Cat3([':'], value + tail, rest);
    Cat3(value, tail, rest);
  }

  /** Parsing the text of a value gives the value. */
  lemma {:induction false} ParseWrite(v: Value)
    ensures Parse(Write(v)) == Some(v)
  {
    ReadBack(v, "");
    assert Write(v) + "" == Write(v);
  }
}

/**
 JSON text: a compact writer, and a reader for the grammar of RFC 8259 (sections 2 to 7)
 without fractions and exponents. Reading what was written gives the value back.
 */
module JsonText {
  import opened Prelude
  import opened Json

  // --------------------------------------------------------------------- the writer

  function HexDigit(n: nat): (c: char)
    requires n < 16
  {
    if n < 10 then '0' + n as char else 'a' + (n - 10) as char
  }

  /** Quotation mark, reverse solidus and the control characters are escaped, nothing else. */
  function EscapeChar(c: char): (text: string) {
    if c == '"' then "\\\""
    else if c == '\\' then "\\\\"
    else if c == '\U{8}' then "\\b"
    else if c == '\U{c}' then "\\f"
    else if c == '\n' then "\\n"
    else if c == '\r' then "\\r"
    else if c == '\t' then "\\t"
    else if c < ' ' then "\\u00" + [HexDigit(c as int / 16), HexDigit(c as int % 16)]
    else [c]
  }

  function EscapeChars(text: string): (r: string) {
    if text == "" then "\"" else EscapeChar(text[0]) + EscapeChars(text[1..])
  }

  function WriteString(text: string): (r: string) {
    ['"'] + EscapeChars(text)
  }

  function WriteInt(n: int): (r: string) {
    if n < 0 then ['-'] + Decimal(-n) else Decimal(n)
  }

  function Width(v: Value): nat {
    match v
    case List(items) => |items|
    case Obj(fields) => |fields|
    case _ => 0
  }

  /** The compact text of a value: no blanks, members in the order they have. */
  function Write(v: Value): (text: string)
    decreases v, Width(v) + 1
  {
    match v
    case Null => "null"
    case Bool(flag) => if flag then "true" else "false"
    case Int(n) => WriteInt(n)
    case Str(text) => WriteString(text)
    case List(items) => if items == [] then "[]" else ['['] + WriteItems(v, 0)
    case Obj(fields) => if fields == [] then "{}" else ['{'] + WriteFields(v, 0)
  }

  /** The elements from the i-th on, and the closing bracket. */
  function WriteItems(v: Value, i: nat): (text: string)
    requires v.List? && i < |v.items|
    decreases v, |v.items| - i
  {
    Write(v.items[i]) + if i + 1 == |v.items| then "]" else [','] + WriteItems(v, i + 1)
  }

  /** The members from the i-th on, and the closing brace. */
  function WriteFields(v: Value, i: nat): (text: string)
    requires v.Obj? && i < |v.fields|
    decreases v, |v.fields| - i
  {
    WriteString(v.fields[i].0) +
    ([':'] + (Write(v.fields[i].1) + if i + 1 == |v.fields| then "}" else [','] + WriteFields(v, i + 1)))
  }

  // --------------------------------------------------------------------- the reader

  predicate Blank(c: char) {
    c == ' ' || c == '\t' || c == '\n' || c == '\r'
  }

  function Skip(s: string): (r: string)
    ensures |r| <= |s|
  {
    if s != "" && Blank(s[0]) then Skip(s[1..]) else s
  }

  function HexValue(c: char): (n: Option<nat>)
    ensures n.Some? ==> n.value < 16
  {
    if '0' <= c <= '9' then Some((c - '0') as int)
    else if 'a' <= c <= 'f' then Some((c - 'a') as int + 10)
    else if 'A' <= c <= 'F' then Some((c - 'A') as int + 10)
    else None
  }

  function Hex4(s: string): (n: Option<nat>)
    ensures n.Some? ==> n.value < 0x10000 && |s| >= 4
  {
    if |s| < 4 then None
    else
      match (HexValue(s[0]), HexValue(s[1]), HexValue(s[2]), HexValue(s[3]))
      case (Some(a), Some(b), Some(c), Some(d)) => Some(((a * 16 + b) * 16 + c) * 16 + d)
      case _ => None
  }

  /** After the four digits of a high surrogate: the low one has to follow. */
  function ReadLow(high: nat, s: string): (r: Option<(char, string)>)
    requires 0xD800 <= high < 0xDC00
    ensures r.Some? ==> |r.value.1| < |s|
  {
    if |s| < 2 || s[0] != '\\' || s[1] != 'u' then None
    else
      match Hex4(s[2..])
      case None => None
      case Some(low) =>
        if 0xDC00 <= low < 0xE000 then Some(((0x10000 + (high - 0xD800) * 0x400 + (low - 0xDC00)) as char, s[6..]))
          else None
  }

  /** After a reverse solidus. */
  function ReadEscape(s: string): (r: Option<(char, string)>)
    ensures r.Some? ==> |r.value.1| < |s|
  {
    if s == "" then None
    else if s[0] == '"' || s[0] == '\\' || s[0] == '/' then Some((s[0], s[1..]))
    else if s[0] == 'b' then Some(('\U{8}', s[1..]))
    else if s[0] == 'f' then Some(('\U{c}', s[1..]))
    else if s[0] == 'n' then Some(('\n', s[1..]))
    else if s[0] == 'r' then Some(('\r', s[1..]))
    else if s[0] == 't' then Some(('\t', s[1..]))
    else if s[0] != 'u' then None
    else
      match Hex4(s[1..])
      case None => None
      case Some(n) =>
        if n < 0xD800 || 0xE000 <= n then Some((n as char, s[5..]))
        else if n < 0xDC00 then ReadLow(n, s[5..])
        else None
  }

  function Prepend(c: char, r: Option<(string, string)>): (q: Option<(string, string)>) {
    if r.Some? then Some(([c] + r.value.0, r.value.1)) else None
  }

  /** The characters of a string up to and including its closing quotation mark. */
  function ReadChars(s: string): (r: Option<(string, string)>)
    ensures r.Some? ==> |r.value.1| < |s|
    decreases |s|
  {
    if s == "" then None
    else if s[0] == '"' then Some(("", s[1..]))
    else if s[0] == '\\' then
      (match ReadEscape(s[1..])
       case None => None
       case Some(e) => Prepend(e.0, ReadChars(e.1)))
    else if s[0] < ' ' then None
    else Prepend(s[0], ReadChars(s[1..]))
  }

  function TakeDigits(s: string): (d: string)
    ensures |d| <= |s| && AllDigits(d)
  {
    if s != "" && '0' <= s[0] <= '9' then [s[0]] + TakeDigits(s[1..]) else ""
  }

  function ReadNumber(s: string): (r: Option<(Value, string)>)
    ensures r.Some? ==> |r.value.1| < |s|
  {
    var negative := s != "" && s[0] == '-';
    var body := if negative then s[1..] else s;
    var digits := TakeDigits(body);
    var rest := body[|digits|..];
    if digits == "" || (|digits| > 1 && digits[0] == '0') then None
    else if rest != "" && (rest[0] == '.' || rest[0] == 'e' || rest[0] == 'E') then None
    else Some((Int(if negative then 0 - DecimalValue(digits) else DecimalValue(digits)), rest))
  }

  function ReadWord(s: string): (r: Option<(Value, string)>)
    ensures r.Some? ==> |r.value.1| < |s|
  {
    if |s| >= 4 && s[..4] == "null" then Some((Null, s[4..]))
    else if |s| >= 4 && s[..4] == "true" then Some((Bool(true), s[4..]))
    else if |s| >= 5 && s[..5] == "false" then Some((Bool(false), s[5..]))
    else None
  }

  function Read(s: string): (r: Option<(Value, string)>)
    ensures r.Some? ==> |r.value.1| < |s|
    decreases |s|, 0
  {
    var t := Skip(s);
    if t == "" then None
    else if t[0] == '"' then
      (match ReadChars(t[1..])
       case None => None
       case Some(text) => Some((Str(text.0), text.1)))
    else if t[0] == '[' then
      var u := Skip(t[1..]);
      if u != "" && u[0] == ']' then Some((List([]), u[1..]))
      else
        (match ReadItems(t[1..])
         case None => None
         case Some(items) => Some((List(items.0), items.1)))
    else if t[0] == '{' then
      var u := Skip(t[1..]);
      if u != "" && u[0] == '}' then Some((Obj([]), u[1..]))
      else
        (match ReadFields(t[1..])
         case None => None
         case Some(fields) => Some((Obj(fields.0), fields.1)))
    else if t[0] == 'n' || t[0] == 't' || t[0] == 'f' then ReadWord(t)
    else ReadNumber(t)
  }

  function ReadItems(s: string): (r: Option<(seq<Value>, string)>)
    ensures r.Some? ==> |r.value.1| < |s|
    decreases |s|, 1
  {
    match Read(s)
    case None => None
    case Some(first) =>
      var t := Skip(first.1);
      if t == "" then None
      else if t[0] == ']' then Some(([first.0], t[1..]))
      else if t[0] == ',' then
        (match ReadItems(t[1..])
         case None => None
         case Some(more) => Some(([first.0] + more.0, more.1)))
      else None
  }

  function ReadFields(s: string): (r: Option<(seq<(string, Value)>, string)>)
    ensures r.Some? ==> |r.value.1| < |s|
    decreases |s|, 1
  {
    match ReadMember(s)
    case None => None
    case Some(first) =>
      var t := Skip(first.1);
      if t == "" then None
      else if t[0] == '}' then Some(([first.0], t[1..]))
      else if t[0] == ',' then
        (match ReadFields(t[1..])
         case None => None
         case Some(more) => Some(([first.0] + more.0, more.1)))
      else None
  }

  /** A name, a colon and a value. */
  function ReadMember(s: string): (r: Option<((string, Value), string)>)
    ensures r.Some? ==> |r.value.1| < |s|
    decreases |s|, 0
  {
    var t := Skip(s);
    if t == "" || t[0] != '"' then None
    else
      match ReadChars(t[1..])
      case None => None
      case Some(name) =>
        var u := Skip(name.1);
        if u == "" || u[0] != ':' then None
        else
          (match Read(u[1..])
           case None => None
           case Some(value) => Some(((name.0, value.0), value.1)))
  }

  /** A JSON text is one value with nothing but blanks around it. */
  function Parse(s: string): (v: Option<Value>) {
    match Read(s)
    case None => None
    case Some(r) => if Skip(r.1) == "" then Some(r.0) else None
  }
}

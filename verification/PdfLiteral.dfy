/**
 Decoding the bytes of a PDF string literal (section 7.3.4.2 of ISO 32000-1), as far as the
 byte loop goes. Turning the bytes into text is not part of this model.
 */
module PdfLiteral {
  import opened Prelude

  type Byte = b: int | 0 <= b < 256

  const BACKSLASH: Byte := 92

  /** What a backslash before this byte stands for, for the named escapes. */
  function Named(b: Byte): (r: Option<Byte>) {
    if b == 110 then Some(10)
    else if b == 114 then Some(13)
    else if b == 116 then Some(9)
    else if b == 98 then Some(8)
    else if b == 102 then Some(12)
    else if b == 40 || b == 41 || b == 92 then Some(b)
    else None
  }

  predicate OctalDigit(b: Byte) {
    48 <= b <= 55
  }

  /** How many octal digits, three at most, start the text. */
  function OctalCount(s: seq<Byte>): (n: nat)
    ensures n <= 3 && n <= |s|
    ensures n == 0 <==> s == [] || !OctalDigit(s[0])
    ensures forall i :: 0 <= i < n ==> OctalDigit(s[i])
    ensures n < 3 && n < |s| ==> !OctalDigit(s[n])
  {
    if s == [] || !OctalDigit(s[0]) then 0
    else if |s| == 1 || !OctalDigit(s[1]) then 1
    else if |s| == 2 || !OctalDigit(s[2]) then 2
    else 3
  }

  function OctalValue(digits: seq<Byte>): (n: nat)
    requires forall i :: 0 <= i < |digits| ==> OctalDigit(digits[i])
  {
    if digits == [] then 0
    else
      assert OctalDigit(digits[|digits| - 1]);
      OctalValue(digits[..|digits| - 1]) * 8 + (digits[|digits| - 1] as int - 48)
  }

  datatype Failure = ByteOutOfRange

  function Prepended(out: seq<Byte>, r: Result<seq<Byte>, Failure>): (q: Result<seq<Byte>, Failure>) {
    if r.Ok? then Ok(out + r.value) else r
  }

  /** One step of the decoding: so many bytes are read and one is written, or the value does not fit. */
  datatype Token = One(used: nat, byte: Byte) | TooBig

  function NextToken(s: seq<Byte>): (t: Token)
    requires s != []
    ensures t.One? ==> 0 < t.used <= |s|
  {
    if s[0] != BACKSLASH || |s| == 1 then One(1, s[0])
    else if Named(s[1]).Some? then One(2, Named(s[1]).value)
    else
      var n := OctalCount(s[1..]);
      if n == 0 then One(2, s[1])
      else if OctalValue(s[1..1 + n]) > 255 then TooBig
      else One(1 + n, OctalValue(s[1..1 + n]))
  }

  /** The decoded bytes, or the error of appending a value above 255 to a byte array. */
  function Decode(s: seq<Byte>): (r: Result<seq<Byte>, Failure>)
    decreases |s|
  {
    if s == [] then Ok([])
    else
      match NextToken(s)
      case TooBig => Err(ByteOutOfRange)
      case One(used, byte) => Prepended([byte], Decode(s[used..]))
  }

  lemma {:induction false} PrependTwice(a: seq<Byte>, b: seq<Byte>, r: Result<seq<Byte>, Failure>)
    ensures Prepended(a, Prepended(b, r)) == Prepended(a + b, r)
  {
    if r.Ok? {
      assert a + (b + r.value) == (a + b) + r.value;
    }
  }

  lemma {:induction false} PrependNothing(r: Result<seq<Byte>, Failure>)
    ensures Prepended([], r) == r
  {
    if r.Ok? {
      assert [] + r.value == r.value;
    }
  }

  // -------------------------------------------------------------- the loop of the source

  /** The run of at most three octal digits at position i. */
  method CollectDigits(text: seq<Byte>, i: nat) returns (digits: seq<Byte>)
    requires i < |text| && OctalDigit(text[i])
    ensures |digits| == OctalCount(text[i..]) && digits == text[i..i + |digits|]
  {
    digits := [text[i]];
    ghost var s := text[i..];
    var last := i;
    for k := 0 to 2
      invariant last < |text| && last == i + |digits| - 1 && 1 <= |digits| <= k + 1
      invariant digits == text[i..last + 1]
      invariant |digits| <= OctalCount(s) && (|digits| <= k ==> |digits| == OctalCount(s))
    {
      if last + 1 < |text| && OctalDigit(text[last + 1]) {
        assert s[|digits|] == text[last + 1];
        last := last + 1;
        digits := digits + [text[last]];
      }
    }
  }

  /** The branches on the byte at position i and the one after it. */
  method ReadToken(text: seq<Byte>, i: nat) returns (token: Token)
    requires i < |text|
    ensures token == NextToken(text[i..])
  {
    ghost var s := text[i..];
    if text[i] != BACKSLASH || i + 1 >= |text| {
      return One(1, text[i]);
    }
    var next := text[i + 1];
    assert s[1..] == text[i + 1..];
    if Named(next).Some? {
      return One(2, Named(next).value);
    }
    if !OctalDigit(next) {
      return One(2, next);
    }
    var digits := CollectDigits(text, i + 1);
    assert s[1..1 + |digits|] == digits;
    token := if OctalValue(digits) > 255 then TooBig else One(1 + |digits|, OctalValue(digits));
  }

  /** So far `out` has been decoded and the text from position i on is left. */
  predicate DecodedTo(text: seq<Byte>, i: nat, out: seq<Byte>)
    requires i <= |text|
  {
    Decode(text) == Prepended(out, Decode(text[i..]))
  }

  lemma {:induction false} DecodeFrom(text: seq<Byte>)
    ensures DecodedTo(text, 0, [])
  {
    assert text[0..] == text;
    PrependNothing(Decode(text));
  }

  /** What one round of the loop makes of the token it read. */
  lemma {:induction false} DecodeToken(text: seq<Byte>, i: nat, out: seq<Byte>, token: Token)
    requires i < |text| && DecodedTo(text, i, out) && token == NextToken(text[i..])
    ensures token.TooBig? ==> Decode(text) == Err(ByteOutOfRange)
    ensures token.One? ==> i + token.used <= |text| && DecodedTo(text, i + token.used, out + [token.byte])
  {
    if token.One? {
      assert text[i..][token.used..] == text[i + token.used..];
      PrependTwice(out, [token.byte], Decode(text[i + token.used..]));
    }
  }

  lemma {:induction false} DecodeNothing(text: seq<Byte>, out: seq<Byte>)
    requires DecodedTo(text, |text|, out)
    ensures Decode(text) == Ok(out)
  {
    assert text[|text|..] == [] && out + [] == out;
  }

  method DecodeLiteral(text: seq<Byte>) returns (result: Result<seq<Byte>, Failure>)
    ensures result == Decode(text)
  {
    var out: seq<Byte> := [];
    var i := 0;
    DecodeFrom(text);
    while i < |text|
      invariant i <= |text| && DecodedTo(text, i, out)
    {
      var token := ReadToken(text, i);
      DecodeToken(text, i, out, token);
      if token.TooBig? {
        return Err(ByteOutOfRange);
      }
      out := out + [token.byte];
      i := i + token.used;
    }
    DecodeNothing(text, out);
    result := Ok(out);
  }

  // ------------------------------------------------------------------- round trips

  datatype Form = Backslashed | Octal

  /** The byte as a writer of literals escapes it, in either form. */
  function Escaped(b: Byte, form: Form): (s: seq<Byte>) {
    if form.Octal? then [BACKSLASH, 48 + b / 64, 48 + b / 8 % 8, 48 + b % 8]
    else if b == 10 then [BACKSLASH, 110]
    else if b == 13 then [BACKSLASH, 114]
    else if b == 9 then [BACKSLASH, 116]
    else if b == 8 then [BACKSLASH, 98]
    else if b == 12 then [BACKSLASH, 102]
    else if b == 40 || b == 41 || b == 92 then [BACKSLASH, b]
    else [b]
  }

  /** A literal in which every byte is written in the form chosen for it. */
  function Encode(s: seq<Byte>, forms: seq<Form>): (r: seq<Byte>)
    requires |forms| == |s|
  {
    if s == [] then [] else Escaped(s[0], forms[0]) + Encode(s[1..], forms[1..])
  }

  lemma {:induction false} ThreeDigits(a: Byte, b: Byte, c: Byte)
    requires OctalDigit(a) && OctalDigit(b) && OctalDigit(c)
    ensures OctalCount([a, b, c]) == 3
    ensures OctalValue([a, b, c]) == (a as int - 48) * 64 + (b as int - 48) * 8 + (c as int - 48)
  {
    var d := [a, b, c];
    assert d[..2] == [a, b] && d[..2][..1] == [a] && d[..2][..1][..0] == [];
    assert OctalValue([a]) == a as int - 48;
    assert OctalValue(d[..2]) == OctalValue(d[..2][..1]) * 8 + (b as int - 48);
    assert OctalValue(d) == OctalValue(d[..2]) * 8 + (c as int - 48);
  }

  lemma {:induction false} BaseEight(b: Byte, hundreds: int, tens: int, ones: int)
    requires hundreds == b / 64 && tens == b / 8 % 8 && ones == b % 8
    ensures 0 <= hundreds < 8 && 0 <= tens < 8 && 0 <= ones < 8 && hundreds * 64 + tens * 8 + ones == b
  {
    assert b / 64 == b / 8 / 8;
  }

  lemma {:induction false} OctalBack(b: Byte)
    ensures var s := Escaped(b, Octal)[1..];
      OctalCount(s) == 3 && OctalValue(s[..3]) == b
  {
    var hundreds, tens, ones := b / 64, b / 8 % 8, b % 8;
    BaseEight(b, hundreds, tens, ones);
    ThreeDigits(48 + hundreds, 48 + tens, 48 + ones);
    var d: seq<Byte> := [48 + hundreds, 48 + tens, 48 + ones];
    assert Escaped(b, Octal)[1..] == d && d[..3] == d;
  }

  lemma {:induction false} OctalTokenBack(b: Byte, rest: seq<Byte>)
    ensures NextToken(Escaped(b, Octal) + rest) == One(4, b)
  {
    var s := Escaped(b, Octal) + rest;
    OctalBack(b);
    assert s[1..4] == Escaped(b, Octal)[1..][..3];
    assert OctalDigit(s[1]) && OctalDigit(s[2]) && OctalDigit(s[3]);
    assert s[1..][0] == s[1] && s[1..][1] == s[2] && s[1..][2] == s[3];
    assert OctalCount(s[1..]) == 3;
  }

  lemma {:induction false} PlainTokenBack(b: Byte, rest: seq<Byte>)
    ensures NextToken(Escaped(b, Backslashed) + rest) == One(|Escaped(b, Backslashed)|, b)
  {
    var s := Escaped(b, Backslashed) + rest;
    assert s[0] == Escaped(b, Backslashed)[0];
    assert |Escaped(b, Backslashed)| == 2 ==> s[1] == Escaped(b, Backslashed)[1];
  }

  lemma {:induction false} OneBack(b: Byte, form: Form, rest: seq<Byte>)
    ensures Decode(Escaped(b, form) + rest) == Prepended([b], Decode(rest))
  {
    OctalTokenBack(b, rest);
    PlainTokenBack(b, rest);
    assert (Escaped(b, form) + rest)[|Escaped(b, form)|..] == rest;
  }

  /** Whatever form each byte is escaped in, decoding returns the original bytes. */
  lemma {:induction false} DecodeEncoded(s: seq<Byte>, forms: seq<Form>)
    requires |forms| == |s|
    ensures Decode(Encode(s, forms)) == Ok(s)
  {
    if s != [] {
      DecodeEncoded(s[1..], forms[1..]);
      OneBack(s[0], forms[0], Encode(s[1..], forms[1..]));
      assert [s[0]] + s[1..] == s;
    }
  }

  // ------------------------------------------------------------- size, and when it fails

  /** Decoding never produces more bytes than it reads. */
  lemma {:induction false} NeverLonger(s: seq<Byte>)
    ensures Decode(s).Ok? ==> |Decode(s).value| <= |s|
    decreases |s|
  {
    if s != [] {
      if s[0] != BACKSLASH || |s| == 1 {
        NeverLonger(s[1..]);
      } else if Named(s[1]).Some? || OctalCount(s[1..]) == 0 {
        NeverLonger(s[2..]);
      } else {
        NeverLonger(s[1 + OctalCount(s[1..])..]);
      }
    }
  }

  /** How many backslashes stand directly before position i. */
  function Backslashes(s: seq<Byte>, i: nat): (n: nat)
    requires i <= |s|
    ensures n <= i
  {
    if i == 0 || s[i - 1] != BACKSLASH then 0 else Backslashes(s, i - 1) + 1
  }

  /** An escape with three octal digits above \377 starts at i: its backslash is not escaped itself. */
  predicate BigOctalAt(s: seq<Byte>, i: nat) {
    && i + 3 < |s| && s[i] == BACKSLASH && Backslashes(s, i) % 2 == 0
    && OctalDigit(s[i + 1]) && OctalDigit(s[i + 2]) && OctalDigit(s[i + 3]) && s[i + 1] >= 52
  }

  ghost predicate NoBigOctal(s: seq<Byte>) {
    forall i: nat :: i < |s| ==> !BigOctalAt(s, i)
  }

  /** After a piece that does not end in an odd run of backslashes, the rest can be looked at alone. */
  lemma {:induction false} ParityAfter(s: seq<Byte>, k: nat, i: nat)
    requires k <= i <= |s| && Backslashes(s, k) % 2 == 0
    ensures Backslashes(s, i) % 2 == Backslashes(s[k..], i - k) % 2
    decreases i
  {
    if i > k && s[i - 1] == BACKSLASH {
      ParityAfter(s, k, i - 1);
    }
  }

  /** Cutting off a piece of k bytes inside which no such escape starts. */
  lemma {:induction false} CutPiece(s: seq<Byte>, k: nat)
    requires 0 < k <= |s| && Backslashes(s, k) % 2 == 0
    requires forall i: nat :: i < k ==> !BigOctalAt(s, i)
    ensures NoBigOctal(s) <==> NoBigOctal(s[k..])
  {
    forall i: nat | i < |s[k..]| ensures BigOctalAt(s[k..], i) <==> BigOctalAt(s, i + k) {
      ParityAfter(s, k, i + k);
    }
    if NoBigOctal(s[k..]) {
      forall i: nat | i < |s| ensures !BigOctalAt(s, i) {
        if i >= k {
          assert !BigOctalAt(s[k..], i - k);
        }
      }
    }
  }

  lemma {:induction false} OctalAbove(digits: seq<Byte>)
    requires 1 <= |digits| <= 3 && forall i :: 0 <= i < |digits| ==> OctalDigit(digits[i])
    ensures OctalValue(digits) > 255 <==> |digits| == 3 && digits[0] >= 52
  {
    assert digits[..|digits| - 1][..0] == [];
    if |digits| == 1 {
      assert digits[..0] == [];
    } else if |digits| == 2 {
      assert digits[..1][..0] == [] && OctalValue(digits[..1]) == digits[0] - 48;
    } else {
      assert digits[..2][..1][..0] == [] && digits[..2][..1] == [digits[0]];
      assert OctalValue([digits[0]]) == digits[0] - 48;
      assert OctalValue(digits[..2]) == OctalValue(digits[..2][..1]) * 8 + (digits[1] - 48);
    }
  }

  /** An escape that starts the text is the only one that can start inside its first k bytes. */
  lemma {:induction false} EscapePiece(s: seq<Byte>, k: nat)
    requires 2 <= k <= |s| && s[0] == BACKSLASH && (s[1] == BACKSLASH ==> k == 2)
    requires forall i :: 2 <= i < k ==> s[i] != BACKSLASH
    ensures Backslashes(s, k) % 2 == 0
    ensures forall i: nat :: 0 < i < k ==> !BigOctalAt(s, i)
  {
    assert Backslashes(s, 1) == 1;
    if s[1] == BACKSLASH {
      assert Backslashes(s, 2) == 2;
    } else {
      assert Backslashes(s, k) == 0;
    }
  }

  /** Decoding fails exactly on the literals that contain an octal escape above \377. */
  lemma {:induction false} FailsIffBigOctal(s: seq<Byte>)
    ensures Decode(s).Ok? <==> NoBigOctal(s)
    decreases |s|
  {
    if s != [] {
      if s[0] != BACKSLASH || |s| == 1 {
        FailsIffBigOctal(s[1..]);
        if |s| > 1 {
          CutPiece(s, 1);
        }
      } else if Named(s[1]).Some? || OctalCount(s[1..]) == 0 {
        FailsIffBigOctal(s[2..]);
        EscapePiece(s, 2);
        CutPiece(s, 2);
      } else {
        OctalPiece(s, OctalCount(s[1..]));
      }
    }
  }

  lemma {:induction false} OctalPiece(s: seq<Byte>, n: nat)
    requires |s| > 1 && s[0] == BACKSLASH && n == OctalCount(s[1..]) > 0
    ensures Decode(s).Ok? <==> NoBigOctal(s)
    decreases |s|, -1
  {
    var digits := s[1..1 + n];
    OctalAbove(digits);
    EscapePiece(s, 1 + n);
    assert forall i :: 0 <= i < n ==> s[1 + i] == s[1..][i];
    assert n < 3 && n + 1 < |s| ==> !OctalDigit(s[1..][n]);
    assert BigOctalAt(s, 0) <==> OctalValue(digits) > 255;
    if OctalValue(digits) <= 255 {
      FailsIffBigOctal(s[1 + n..]);
      CutPiece(s, 1 + n);
    }
  }
}

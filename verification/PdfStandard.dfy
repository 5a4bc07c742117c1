/**
 What section 7.3.4.2 of ISO 32000-1 says a string literal stands for, and exactly which literals
 the decoder reads as the standard does.
 */
module PdfStandard {
  import opened Prelude
  import opened PdfLiteral

  const CR: Byte := 13
  const LF: Byte := 10

  /** How many bytes the end-of-line marker at the start of the text takes; 0 if there is none. */
  function EndOfLine(s: seq<Byte>): (n: nat)
    ensures n <= 2 && n <= |s|
    ensures n > 0 <==> s != [] && s[0] in {CR, LF}
    ensures n == 2 <==> |s| > 1 && s[0] == CR && s[1] == LF
  {
    if s == [] || s[0] !in {CR, LF} then 0
    else if |s| > 1 && s[0] == CR && s[1] == LF then 2
    else 1
  }

  /** A piece of a literal, so many bytes long, and the bytes it stands for. */
  datatype Piece = Piece(used: nat, bytes: seq<Byte>)

  /**
   The first piece. Any end-of-line marker is read as a line feed, and dropped after a backslash;
   the value of an octal escape loses what exceeds a byte; a backslash before anything else is
   ignored. A literal never ends in a lone backslash: it would escape the closing parenthesis.
   */
  function NextPiece(s: seq<Byte>): (p: Piece)
    requires s != []
    ensures 0 < p.used <= |s|
  {
    if s[0] != BACKSLASH then
      if EndOfLine(s) > 0 then Piece(EndOfLine(s), [LF]) else Piece(1, [s[0]])
    else if |s| == 1 then Piece(1, [s[0]])
    else if Named(s[1]).Some? then Piece(2, [Named(s[1]).value])
    else if EndOfLine(s[1..]) > 0 then Piece(1 + EndOfLine(s[1..]), [])
    else
      var n := OctalCount(s[1..]);
      if n == 0 then Piece(2, [s[1]]) else Piece(1 + n, [OctalValue(s[1..1 + n]) % 256])
  }

  /** The bytes the literal stands for. */
  function Standard(s: seq<Byte>): (r: seq<Byte>)
    decreases |s|
  {
    if s == [] then [] else NextPiece(s).bytes + Standard(s[NextPiece(s).used..])
  }

  // -------------------------------------------------------------- where the decoder departs

  /** An unescaped carriage return, or a backslash, itself unescaped, before an end of line. */
  predicate LineEndAt(s: seq<Byte>, i: nat) {
    && i < |s| && Backslashes(s, i) % 2 == 0
    && (s[i] == CR || (s[i] == BACKSLASH && i + 1 < |s| && s[i + 1] in {CR, LF}))
  }

  predicate DepartsAt(s: seq<Byte>, i: nat) {
    BigOctalAt(s, i) || LineEndAt(s, i)
  }

  ghost predicate Conforming(s: seq<Byte>) {
    forall i: nat :: i < |s| ==> !DepartsAt(s, i)
  }

  lemma {:induction false} CutConforming(s: seq<Byte>, k: nat)
    requires 0 < k <= |s| && Backslashes(s, k) % 2 == 0
    requires forall i: nat :: i < k ==> !DepartsAt(s, i)
    ensures Conforming(s) <==> Conforming(s[k..])
  {
    forall i: nat | i < |s[k..]| ensures DepartsAt(s[k..], i) <==> DepartsAt(s, i + k) {
      ParityAfter(s, k, i + k);
    }
    if Conforming(s[k..]) {
      forall i: nat | i < |s| ensures !DepartsAt(s, i) {
        if i >= k {
          assert !DepartsAt(s[k..], i - k);
        }
      }
    }
  }

  /** After an escape that is not a departure, the rest of the literal decides. */
  lemma {:induction false} CutEscape(s: seq<Byte>, k: nat)
    requires 2 <= k <= |s| && s[0] == BACKSLASH && (s[1] == BACKSLASH ==> k == 2) && !DepartsAt(s, 0)
    requires forall i :: 2 <= i < k ==> OctalDigit(s[i])
    ensures Conforming(s) <==> Conforming(s[k..])
  {
    EscapePiece(s, k);
    forall i: nat | i < k ensures !DepartsAt(s, i) {
      if i == 1 {
        assert Backslashes(s, 1) == 1;
      }
    }
    CutConforming(s, k);
  }

  /** Both read the same piece, unless the literal departs right here. */
  lemma {:induction false} SamePiece(s: seq<Byte>)
    requires s != [] && !DepartsAt(s, 0)
    ensures NextToken(s).One? && NextPiece(s) == Piece(NextToken(s).used, [NextToken(s).byte])
    ensures Conforming(s) <==> Conforming(s[NextToken(s).used..])
  {
    assert Backslashes(s, 0) == 0;
    if s[0] != BACKSLASH || |s| == 1 {
      if |s| > 1 {
        CutConforming(s, 1);
      }
    } else if Named(s[1]).Some? || OctalCount(s[1..]) == 0 {
      CutEscape(s, 2);
    } else {
      SameOctal(s, OctalCount(s[1..]));
    }
  }

  lemma {:induction false} SameOctal(s: seq<Byte>, n: nat)
    requires |s| > 1 && s[0] == BACKSLASH && n == OctalCount(s[1..]) > 0 && !DepartsAt(s, 0)
    ensures OctalValue(s[1..1 + n]) <= 255 && NextToken(s) == One(1 + n, OctalValue(s[1..1 + n]))
    ensures NextPiece(s) == Piece(1 + n, [OctalValue(s[1..1 + n])])
    ensures Conforming(s) <==> Conforming(s[1 + n..])
  {
    var digits := s[1..1 + n];
    OctalAbove(digits);
    assert forall i :: 0 <= i < n ==> s[1 + i] == s[1..][i];
    assert n < 3 && n + 1 < |s| ==> !OctalDigit(s[1..][n]);
    CutEscape(s, 1 + n);
  }

  /** The decoder never loses a byte the standard keeps. */
  lemma {:induction false} NotShorter(s: seq<Byte>)
    ensures Decode(s).Ok? ==> |Decode(s).value| >= |Standard(s)|
    decreases |s|
  {
    if s != [] && NextToken(s).One? {
      NotShorter(s[NextToken(s).used..]);
      if NextPiece(s).used > NextToken(s).used {
        SplitMarker(s);
      }
    }
  }

  /** A two-byte end of line is two tokens to the decoder. */
  lemma {:induction false} SplitMarker(s: seq<Byte>)
    requires s != [] && NextToken(s).One? && NextPiece(s).used > NextToken(s).used
    ensures NextPiece(s).used == NextToken(s).used + 1
    ensures Decode(s) == Prepended([CR], Prepended([LF], Decode(s[NextPiece(s).used..])))
    ensures |NextPiece(s).bytes| <= 1
    ensures Decode(s).Ok? ==> |Decode(s).value| >= |Standard(s)|
    decreases |s|, -1
  {
    var t := s[NextToken(s).used..];
    assert t[0] == LF && t[1..] == s[NextPiece(s).used..];
    NotShorter(t[1..]);
  }

  lemma {:induction false} OtherHead(a: Byte, b: Byte, r: Result<seq<Byte>, Failure>, t: seq<Byte>)
    requires a != b
    ensures Prepended([a], r) != Ok([b] + t)
  {
    assert ([b] + t)[0] == b;
    assert r.Ok? ==> ([a] + r.value)[0] == a;
  }

  /** An unescaped carriage return: the first bytes differ. */
  lemma {:induction false} ReturnDeparts(s: seq<Byte>)
    requires s != [] && s[0] == CR
    ensures Decode(s) != Ok(Standard(s))
  {
    assert NextToken(s) == One(1, CR) && NextPiece(s).bytes == [LF];
    OtherHead(CR, LF, Decode(s[1..]), Standard(s[NextPiece(s).used..]));
  }

  /** An escaped end of line of one byte: the decoder keeps a byte more. */
  lemma {:induction false} EscapedByteDeparts(s: seq<Byte>)
    requires |s| > 1 && s[0] == BACKSLASH && NextPiece(s) == Piece(2, []) && NextToken(s) == One(2, s[1])
    ensures Decode(s) != Ok(Standard(s))
  {
    NotShorter(s[2..]);
    assert Standard(s) == [] + Standard(s[2..]) == Standard(s[2..]);
    assert Decode(s) == Prepended([s[1]], Decode(s[2..]));
  }

  /** An escaped end of line of two bytes: it keeps two more. */
  lemma {:induction false} EscapedMarkerDeparts(s: seq<Byte>)
    requires |s| > 2 && NextPiece(s) == Piece(3, []) && NextToken(s) == One(2, s[1])
    ensures Decode(s) != Ok(Standard(s))
  {
    SplitMarker(s);
    NotShorter(s[3..]);
  }

  /** A literal that departs with its first piece is read differently. */
  lemma {:induction false} DepartsAtOnce(s: seq<Byte>)
    requires s != [] && DepartsAt(s, 0)
    ensures Decode(s) != Ok(Standard(s))
  {
    if BigOctalAt(s, 0) {
      FailsIffBigOctal(s);
    } else if s[0] == CR {
      ReturnDeparts(s);
    } else {
      assert s[1..][0] == s[1];
      if NextPiece(s).used == 2 {
        EscapedByteDeparts(s);
      } else {
        EscapedMarkerDeparts(s);
      }
    }
  }

  /** The decoder reads a literal as the standard does exactly when nothing in it departs. */
  lemma {:induction false} StandardIffConforming(s: seq<Byte>)
    ensures Decode(s) == Ok(Standard(s)) <==> Conforming(s)
    decreases |s|
  {
    if s != [] {
      if DepartsAt(s, 0) {
        DepartsAtOnce(s);
      } else {
        SamePiece(s);
        var used, byte := NextToken(s).used, NextToken(s).byte;
        StandardIffConforming(s[used..]);
        SameHead(byte, Decode(s[used..]), Standard(s[used..]));
      }
    }
  }

  lemma {:induction false} SameHead(byte: Byte, r: Result<seq<Byte>, Failure>, t: seq<Byte>)
    ensures Prepended([byte], r) == Ok([byte] + t) <==> r == Ok(t)
  {
    if r.Ok? && [byte] + r.value == [byte] + t {
      assert ([byte] + r.value)[1..] == r.value && ([byte] + t)[1..] == t;
    }
  }

  // ------------------------------------------------------------- one literal of each kind

  /** Both readings of a literal that is one piece to the standard and one token, or two, to the decoder. */
  lemma {:induction false} WholePiece(s: seq<Byte>, bytes: seq<Byte>)
    requires s != [] && NextPiece(s) == Piece(|s|, bytes)
    ensures Standard(s) == bytes
    ensures NextToken(s).One? && NextToken(s).used == |s| ==> Decode(s) == Ok([NextToken(s).byte])
    ensures NextToken(s).One? && NextToken(s).used < |s| && s[NextToken(s).used..] == [LF] ==>
              Decode(s) == Ok([NextToken(s).byte, LF])
  {
    assert s[|s|..] == [] && Standard([]) == [] && Decode([]) == Ok([]);
    assert bytes + [] == bytes && [LF] + [] == [LF];
    if NextToken(s).One? {
      assert [NextToken(s).byte] + [] == [NextToken(s).byte] && [NextToken(s).byte] + [LF] == [NextToken(s).byte, LF];
    }
    assert [LF][1..] == [] && NextToken([LF]) == One(1, LF) && Decode([LF]) == Ok([LF]);
  }

  /** A carriage return is kept, where the standard reads a line feed. */
  lemma {:induction false} ReturnKept()
    ensures Decode([CR]) == Ok([CR]) && Standard([CR]) == [LF]
  {
    WholePiece([CR], [LF]);
  }

  /** Both bytes of an end of line are kept, where the standard reads one line feed. */
  lemma {:induction false} MarkerKept()
    ensures Decode([CR, LF]) == Ok([CR, LF]) && Standard([CR, LF]) == [LF]
  {
    assert [CR, LF][1..] == [LF];
    WholePiece([CR, LF], [LF]);
  }

  /** An escaped end of line is kept, where the standard drops it. */
  lemma {:induction false} EscapedLineKept(byte: Byte)
    requires byte in {CR, LF}
    ensures Decode([BACKSLASH, byte]) == Ok([byte]) && Standard([BACKSLASH, byte]) == []
  {
    assert [BACKSLASH, byte][1..] == [byte];
    WholePiece([BACKSLASH, byte], []);
  }

  lemma {:induction false} EscapedMarkerKept()
    ensures Decode([BACKSLASH, CR, LF]) == Ok([CR, LF]) && Standard([BACKSLASH, CR, LF]) == []
  {
    var s := [BACKSLASH, CR, LF];
    assert s[1..] == [CR, LF] && s[2..] == [LF];
    WholePiece(s, []);
  }

  /** The value of 400 read in base eight. */
  lemma {:induction false} FourHundred()
    ensures OctalValue([52, 48, 48]) == 256
  {
    var d := [52, 48, 48];
    assert d[..2] == [52, 48] && d[..2][..1] == [52] && d[..2][..1][..0] == [];
    assert OctalValue([52]) == 4;
    assert OctalValue(d[..2]) == OctalValue(d[..2][..1]) * 8;
    assert OctalValue(d) == OctalValue(d[..2]) * 8;
  }

  /** \400 is an error, where the standard reads a zero byte. */
  lemma {:induction false} BigOctalRefused()
    ensures Decode([BACKSLASH, 52, 48, 48]).Err? && Standard([BACKSLASH, 52, 48, 48]) == [0]
  {
    var s := [BACKSLASH, 52, 48, 48];
    assert s[1..4] == s[1..] == [52, 48, 48];
    FourHundred();
    assert BigOctalAt(s, 0);
    FailsIffBigOctal(s);
    WholePiece(s, [0]);
  }
}

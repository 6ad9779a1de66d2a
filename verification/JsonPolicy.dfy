/**
 * The duplicate-rejecting JSON scanner (firmware/src/pipa_json_policy.cpp).
 *
 * The functions parse a byte string from a position and return the tree they found and where
 * it ends; class `JsonScanner` advances its position in place and is proved to agree with
 * them. The two theorems at the end of the functions relate them to `JsonGrammar`.
 */
module JsonPolicy {
  import opened Prelude
  import opened Utf8
  import opened JsonGrammar

  /** `t` stands in `s` at position `i`. */
  predicate Has(s: bytes, i: nat, t: bytes)
    decreases |t|
  {
    if t == [] then i <= |s| else i < |s| && s[i] == t[0] && Has(s, i + 1, t[1..])
  }

  lemma {:induction false} HasSlice(s: bytes, i: nat, t: bytes)
    ensures Has(s, i, t) <==> i + |t| <= |s| && s[i..i + |t|] == t
    decreases |t|
  {
    if t == [] {
      assert i <= |s| ==> s[i..i] == [];
    } else if i + |t| <= |s| {
      HasSlice(s, i + 1, t[1..]);
      assert s[i..i + |t|] == [s[i]] + s[i + 1..i + 1 + |t[1..]|];
      assert t == [t[0]] + t[1..];
      if s[i..i + |t|] == t {
        assert t[1..] == s[i..i + |t|][1..] == s[i + 1..i + |t|];
      }
    } else if i < |s| {
      HasSlice(s, i + 1, t[1..]);
    }
  }

  lemma {:induction false} HasSplit(s: bytes, i: nat, a: bytes, b: bytes)
    ensures Has(s, i, a + b) <==> Has(s, i, a) && Has(s, i + |a|, b)
    decreases |a|
  {
    if a == [] {
      assert a + b == b;
      HasBounds(s, i, b);
    } else {
      assert (a + b)[1..] == a[1..] + b && (a + b)[0] == a[0];
      HasSplit(s, i + 1, a[1..], b);
    }
  }

  lemma {:induction false} HasBounds(s: bytes, i: nat, t: bytes)
    ensures Has(s, i, t) ==> i + |t| <= |s|
    decreases |t|
  {
    if t != [] {
      HasBounds(s, i + 1, t[1..]);
    }
  }

  lemma HasOne(s: bytes, i: nat, b: byte)
    ensures Has(s, i, [b]) <==> i < |s| && s[i] == b
  {
    assert [b][1..] == [];
  }

  lemma NoText(s: bytes, i: nat)
    ensures Has(s, i, []) <==> i <= |s|
  {
  }

  lemma HasTwo(s: bytes, i: nat, a: byte, b: byte)
    ensures Has(s, i, [a, b]) <==> i + 1 < |s| && s[i] == a && s[i + 1] == b
  {
    assert [a, b][1..] == [b];
    HasOne(s, i + 1, b);
  }

  // ----- Blanks and digits -----

  function SkipBlanks(s: bytes, i: nat): (r: nat)
    requires i <= |s|
    ensures i <= r <= |s| && Blanks(s[i..r])
    ensures r < |s| ==> !IsWhitespace(s[r])
    decreases |s| - i
  {
    if i < |s| && IsWhitespace(s[i]) then
      var r := SkipBlanks(s, i + 1);
      assert s[i..r] == [s[i]] + s[i + 1..r];
      r
    else
      assert s[i..i] == [];
      i
  }

  lemma {:induction false} SkipBlanksExactly(s: bytes, i: nat, blanks: bytes)
    requires Has(s, i, blanks) && Blanks(blanks)
    requires i + |blanks| <= |s|
    requires i + |blanks| < |s| ==> !IsWhitespace(s[i + |blanks|])
    ensures SkipBlanks(s, i) == i + |blanks|
    decreases |blanks|
  {
    if blanks != [] {
      SkipBlanksExactly(s, i + 1, blanks[1..]);
    }
  }

  function SkipDigits(s: bytes, i: nat): (r: nat)
    requires i <= |s|
    ensures i <= r <= |s| && Digits(s[i..r])
    decreases |s| - i
  {
    if i < |s| && IsDigit(s[i]) then
      var r := SkipDigits(s, i + 1);
      assert s[i..r] == [s[i]] + s[i + 1..r];
      r
    else
      assert s[i..i] == [];
      i
  }

  lemma {:induction false} SkipDigitsExactly(s: bytes, i: nat, digits: bytes)
    requires Has(s, i, digits) && Digits(digits)
    requires i + |digits| <= |s|
    requires i + |digits| < |s| ==> !IsDigit(s[i + |digits|])
    ensures SkipDigits(s, i) == i + |digits|
    decreases |digits|
  {
    if digits != [] {
      SkipDigitsExactly(s, i + 1, digits[1..]);
    }
  }

  /** What a parse function found and where it ends. */
  datatype Parsed<+T> = Fail | Parsed(tree: T, end: nat)

  // ----- Strings -----

  function QuadAt(s: bytes, i: nat): Quad
    requires i + 4 <= |s|
  {
    Quad(s[i], s[i + 1], s[i + 2], s[i + 3])
  }

  predicate HexAt(s: bytes, i: nat) {
    i + 4 <= |s| && GoodQuad(QuadAt(s, i))
  }

  /** The piece at `i`, which is neither the closing quote nor the end. */
  function FindPiece(s: bytes, i: nat): (r: Option<Piece>)
    requires i < |s| && s[i] != QUOTE
    ensures r.Some? ==> GoodPiece(r.value)
  {
    if s[i] < 0x20 then None
    else if s[i] != BACKSLASH then Some(Raw(s[i]))
    else if i + 1 >= |s| then None
    else if ShortValue(s[i + 1]).Some? then Some(Short(s[i + 1]))
    else if s[i + 1] != LETTER_U || !HexAt(s, i + 2) then None
    else
      var unit := QuadNumber(QuadAt(s, i + 2));
      if 0xD800 <= unit <= 0xDBFF then
        if i + 7 >= |s| || s[i + 6] != BACKSLASH || s[i + 7] != LETTER_U || !HexAt(s, i + 8) then None
        else if !(0xDC00 <= QuadNumber(QuadAt(s, i + 8)) <= 0xDFFF) then None
        else Some(Pair(QuadAt(s, i + 2), QuadAt(s, i + 8)))
      else if 0xDC00 <= unit <= 0xDFFF then None
      else Some(Unit(QuadAt(s, i + 2)))
  }

  lemma HasQuad(s: bytes, i: nat, q: Quad)
    ensures Has(s, i, QuadText(q)) <==> i + 4 <= |s| && QuadAt(s, i) == q
  {
    assert QuadText(q) == [q.a, q.b] + [q.c, q.d];
    HasSplit(s, i, [q.a, q.b], [q.c, q.d]);
    HasTwo(s, i, q.a, q.b);
    HasTwo(s, i + 2, q.c, q.d);
  }

  lemma EscapeSplit(s: bytes, i: nat, tail: bytes)
    ensures Has(s, i, [BACKSLASH, LETTER_U] + tail) <==>
            i + 1 < |s| && s[i] == BACKSLASH && s[i + 1] == LETTER_U && Has(s, i + 2, tail)
  {
    HasSplit(s, i, [BACKSLASH, LETTER_U], tail);
    HasTwo(s, i, BACKSLASH, LETTER_U);
  }

  lemma FirstPieceIsThere(s: bytes, i: nat)
    requires i < |s| && s[i] != QUOTE && FindPiece(s, i).Some?
    ensures Has(s, i, PieceText(FindPiece(s, i).value))
  {
    match FindPiece(s, i).value
    case Raw(b) => HasOne(s, i, b);
    case Short(letter) => HasTwo(s, i, BACKSLASH, letter);
    case Unit(digits) =>
      EscapeSplit(s, i, QuadText(digits));
      HasQuad(s, i + 2, digits);
    case Pair(high, low) => PairIsThere(s, i, high, low);
  }

  lemma PairIsThere(s: bytes, i: nat, high: Quad, low: Quad)
    ensures Has(s, i, PieceText(Pair(high, low))) <==>
            && i + 12 <= |s|
            && s[i] == BACKSLASH && s[i + 1] == LETTER_U && QuadAt(s, i + 2) == high
            && s[i + 6] == BACKSLASH && s[i + 7] == LETTER_U && QuadAt(s, i + 8) == low
  {
    EscapeSplit(s, i, QuadText(high) + ([BACKSLASH, LETTER_U] + QuadText(low)));
    HasSplit(s, i + 2, QuadText(high), [BACKSLASH, LETTER_U] + QuadText(low));
    HasQuad(s, i + 2, high);
    EscapeSplit(s, i + 6, QuadText(low));
    HasQuad(s, i + 8, low);
  }

  lemma FirstPieceFinds(s: bytes, i: nat, piece: Piece)
    requires GoodPiece(piece) && Has(s, i, PieceText(piece))
    ensures i < |s| && s[i] != QUOTE && FindPiece(s, i) == Some(piece)
  {
    hide Has, QuadText;
    match piece
    case Raw(b) => HasOne(s, i, b);
    case Short(letter) => HasTwo(s, i, BACKSLASH, letter);
    case Unit(digits) =>
      EscapeSplit(s, i, QuadText(digits));
      HasQuad(s, i + 2, digits);
    case Pair(high, low) => PairIsThere(s, i, high, low);
  }

  lemma PieceLength(piece: Piece)
    ensures 1 <= |PieceText(piece)|
  {
  }

  /** The pieces from `i` to the closing quote, and the position after it. */
  function FindPieces(s: bytes, i: nat): (r: Parsed<seq<Piece>>)
    ensures r.Parsed? ==> GoodPieces(r.tree) && i < r.end <= |s|
    decreases |s| - i
  {
    if i >= |s| then Fail
    else if s[i] == QUOTE then Parsed([], i + 1)
    else
      var piece := FindPiece(s, i);
      if piece.None? then Fail
      else
        PieceLength(piece.value);
        FirstPieceIsThere(s, i);
        var rest := FindPieces(s, i + |PieceText(piece.value)|);
        if rest.Fail? then Fail else Parsed([piece.value] + rest.tree, rest.end)
  }

  lemma {:induction false} PiecesAreThere(s: bytes, i: nat)
    requires FindPieces(s, i).Parsed?
    ensures var pieces, end := FindPieces(s, i).tree, FindPieces(s, i).end;
            Has(s, i, PiecesText(pieces) + [QUOTE]) && end == i + |PiecesText(pieces)| + 1
    decreases |s| - i
  {
    hide Has, FindPiece, PieceText;
    if s[i] == QUOTE {
      assert PiecesText([]) + [QUOTE] == [QUOTE];
      HasOne(s, i, QUOTE);
    } else {
      var piece := FindPiece(s, i).value;
      PieceLength(piece);
      FirstPieceIsThere(s, i);
      PiecesAreThere(s, i + |PieceText(piece)|);
      var rest, end := FindPieces(s, i + |PieceText(piece)|).tree, FindPieces(s, i + |PieceText(piece)|).end;
      var pieces := [piece] + rest;
      assert pieces[1..] == rest;
      HasSplit(s, i, PieceText(piece), PiecesText(rest) + [QUOTE]);
      assert PiecesText(pieces) + [QUOTE] == PieceText(piece) + (PiecesText(rest) + [QUOTE]);
    }
  }

  lemma ClosingQuote(s: bytes, i: nat)
    requires Has(s, i, PiecesText([]) + [QUOTE])
    ensures FindPieces(s, i) == Parsed([], i + 1)
  {
    assert PiecesText([]) + [QUOTE] == [QUOTE];
    HasOne(s, i, QUOTE);
  }

  lemma PiecesStep(s: bytes, i: nat, piece: Piece, rest: seq<Piece>, end: nat)
    requires GoodPiece(piece) && Has(s, i, PieceText(piece))
    requires FindPieces(s, i + |PieceText(piece)|) == Parsed(rest, end)
    ensures FindPieces(s, i) == Parsed([piece] + rest, end)
  {
    hide Has, FindPiece, PieceText;
    FirstPieceFinds(s, i, piece);
  }

  lemma PiecesSplit(s: bytes, i: nat, pieces: seq<Piece>)
    requires pieces != [] && Has(s, i, PiecesText(pieces) + [QUOTE])
    ensures Has(s, i, PieceText(pieces[0]))
    ensures Has(s, i + |PieceText(pieces[0])|, PiecesText(pieces[1..]) + [QUOTE])
    ensures |PiecesText(pieces)| == |PieceText(pieces[0])| + |PiecesText(pieces[1..])|
  {
    hide Has, PieceText;
    var t, tail := PieceText(pieces[0]), PiecesText(pieces[1..]) + [QUOTE];
    assert PiecesText(pieces) + [QUOTE] == t + tail;
    HasSplit(s, i, t, tail);
  }

  lemma {:induction false} PiecesAreFound(s: bytes, i: nat, pieces: seq<Piece>, end: nat)
    requires GoodPieces(pieces) && Has(s, i, PiecesText(pieces) + [QUOTE])
    requires end == i + |PiecesText(pieces)| + 1
    ensures FindPieces(s, i) == Parsed(pieces, end)
    decreases |pieces|
  {
    hide Has, FindPieces, FindPiece, PieceText;
    if pieces == [] {
      ClosingQuote(s, i);
    } else {
      PiecesSplit(s, i, pieces);
      PiecesAreFound(s, i + |PieceText(pieces[0])|, pieces[1..], end);
      PiecesStep(s, i, pieces[0], pieces[1..], end);
      assert [pieces[0]] + pieces[1..] == pieces;
    }
  }

  function FindString(s: bytes, i: nat): (r: Parsed<seq<Piece>>)
    ensures r.Parsed? ==> GoodPieces(r.tree) && i < r.end <= |s|
  {
    if i < |s| && s[i] == QUOTE then FindPieces(s, i + 1) else Fail
  }

  lemma StringIsThere(s: bytes, i: nat)
    requires FindString(s, i).Parsed?
    ensures var pieces, end := FindString(s, i).tree, FindString(s, i).end;
            Has(s, i, StringText(pieces)) && end == i + |StringText(pieces)|
  {
    hide Has, PieceText, FindPiece;
    PiecesAreThere(s, i + 1);
    HasOne(s, i, QUOTE);
    HasSplit(s, i, [QUOTE], PiecesText(FindString(s, i).tree) + [QUOTE]);
  }

  lemma StringIsFound(s: bytes, i: nat, pieces: seq<Piece>)
    requires GoodPieces(pieces) && Has(s, i, StringText(pieces))
    ensures FindString(s, i) == Parsed(pieces, i + |StringText(pieces)|)
  {
    hide Has, FindPieces;
    HasSplit(s, i, [QUOTE], PiecesText(pieces) + [QUOTE]);
    HasOne(s, i, QUOTE);
    PiecesAreFound(s, i + 1, pieces, i + 1 + |PiecesText(pieces)| + 1);
  }

  // ----- Numbers -----

  function FindFraction(s: bytes, i: nat): (r: (Option<bytes>, nat))
    requires i <= |s|
    ensures i <= r.1 <= |s| && r.1 == i + |FractionText(r.0)| && Has(s, i, FractionText(r.0))
    ensures r.0.Some? ==> Digits(r.0.value)
  {
    if i < |s| && s[i] == DOT then
      var end := SkipDigits(s, i + 1);
      HasOne(s, i, DOT);
      HasSlice(s, i + 1, s[i + 1..end]);
      HasSplit(s, i, [DOT], s[i + 1..end]);
      (Some(s[i + 1..end]), end)
    else (None, i)
  }

  lemma ExponentSplit(s: bytes, i: nat, e: Exponent)
    ensures var sign := OptionalText(e.sign);
            Has(s, i, ExponentText(Some(e))) <==>
            i < |s| && s[i] == e.letter && Has(s, i + 1, sign) && Has(s, i + 1 + |sign|, e.digits)
    ensures |ExponentText(Some(e))| == 1 + |OptionalText(e.sign)| + |e.digits|
  {
    var sign := OptionalText(e.sign);
    HasSplit(s, i, [e.letter], sign + e.digits);
    HasSplit(s, i + 1, sign, e.digits);
    HasOne(s, i, e.letter);
  }

  lemma ExponentIsThere(s: bytes, i: nat, e: Exponent, j: nat, end: nat)
    requires i < |s| && s[i] == e.letter && j == i + 1 + |OptionalText(e.sign)| <= end <= |s| && e.digits == s[j..end]
    requires e.sign.Some? ==> s[i + 1] == e.sign.value
    ensures Has(s, i, ExponentText(Some(e))) && end == i + |ExponentText(Some(e))|
  {
    hide Has, ExponentText;
    HasOne(s, i + 1, s[j - 1]);
    HasSlice(s, j, e.digits);
    NoText(s, i + 1);
    ExponentSplit(s, i, e);
  }

  function FindExponent(s: bytes, i: nat): (r: (Option<Exponent>, nat))
    requires i <= |s|
    ensures i <= r.1 <= |s| && r.1 == i + |ExponentText(r.0)| && Has(s, i, ExponentText(r.0))
    ensures r.0.Some? ==> GoodExponent(r.0.value)
  {
    if i < |s| && (s[i] == 0x65 || s[i] == 0x45) then
      var sign := if i + 1 < |s| && (s[i + 1] == PLUS || s[i + 1] == MINUS) then Some(s[i + 1]) else None;
      var j := if sign.Some? then i + 2 else i + 1;
      var end := SkipDigits(s, j);
      var e := Exponent(s[i], sign, s[j..end]);
      ExponentIsThere(s, i, e, j, end);
      (Some(e), end)
    else (None, i)
  }

  lemma NumeralSplit(s: bytes, i: nat, n: Numeral)
    ensures var (sign, fraction) := (SignText(n.minus), FractionText(n.fraction));
            Has(s, i, NumeralText(n)) <==>
            && Has(s, i, sign) && Has(s, i + |sign|, n.whole) && Has(s, i + |sign| + |n.whole|, fraction)
            && Has(s, i + |sign| + |n.whole| + |fraction|, ExponentText(n.exponent))
    ensures |NumeralText(n)| == |SignText(n.minus)| + |n.whole| + |FractionText(n.fraction)| + |ExponentText(n.exponent)|
  {
    var sign, fraction, exponent := SignText(n.minus), FractionText(n.fraction), ExponentText(n.exponent);
    HasSplit(s, i, sign, n.whole + (fraction + exponent));
    HasSplit(s, i + |sign|, n.whole, fraction + exponent);
    HasSplit(s, i + |sign| + |n.whole|, fraction, exponent);
  }

  /** The longest numeral at `i`, possibly an empty one. */
  function NumeralAt(s: bytes, i: nat): (r: (Numeral, nat))
    requires i <= |s|
  {
    var minus := i < |s| && s[i] == MINUS;
    var a := if minus then i + 1 else i;
    var b := SkipDigits(s, a);
    var (fraction, c) := FindFraction(s, b);
    var (exponent, end) := FindExponent(s, c);
    (Numeral(minus, s[a..b], fraction, exponent), end)
  }

  lemma NumeralIsThere(s: bytes, i: nat)
    requires i <= |s|
    ensures var (n, end) := NumeralAt(s, i);
            && Has(s, i, NumeralText(n)) && i <= end <= |s| && end == i + |NumeralText(n)|
            && (i < end ==> GoodNumeral(n))
  {
    hide Has, SkipDigits, FindFraction, FindExponent;
    var (n, end) := NumeralAt(s, i);
    var a := i + |SignText(n.minus)|;
    HasOne(s, i, MINUS);
    NoText(s, i);
    HasSlice(s, a, n.whole);
    NumeralSplit(s, i, n);
  }

  function FindNumeral(s: bytes, i: nat): (r: Parsed<Numeral>)
    requires i <= |s|
    ensures r.Parsed? ==> GoodNumeral(r.tree) && i < r.end <= |s|
  {
    NumeralIsThere(s, i);
    var (n, end) := NumeralAt(s, i);
    if end > i then Parsed(n, end) else Fail
  }

  /** What may follow a value: a blank, a comma, a closing bracket or brace, or the end. */
  predicate Terminated(s: bytes, i: nat) {
    i <= |s| && (i < |s| ==> IsWhitespace(s[i]) || s[i] == COMMA || s[i] == CLOSE_BRACKET || s[i] == CLOSE_BRACE)
  }

  lemma FractionIsFound(s: bytes, i: nat, fraction: Option<bytes>, end: nat)
    requires fraction.Some? ==> Digits(fraction.value)
    requires Has(s, i, FractionText(fraction)) && end == i + |FractionText(fraction)| <= |s|
    requires end < |s| ==> !IsDigit(s[end]) && s[end] != DOT && s[end] != MINUS
    ensures FindFraction(s, i) == (fraction, end)
    ensures i < |s| ==> !IsDigit(s[i]) && s[i] != MINUS
  {
    hide Has, SkipDigits, Digits;
    NoText(s, i);
    if fraction.Some? {
      HasSplit(s, i, [DOT], fraction.value);
      HasOne(s, i, DOT);
      DigitsAreFound(s, i + 1, fraction.value);
    }
  }

  lemma ExponentIsFound(s: bytes, i: nat, exponent: Option<Exponent>, end: nat)
    requires exponent.Some? ==> GoodExponent(exponent.value)
    requires Has(s, i, ExponentText(exponent)) && end == i + |ExponentText(exponent)| && Terminated(s, end)
    ensures FindExponent(s, i) == (exponent, end)
    ensures i < |s| ==> !IsDigit(s[i]) && s[i] != DOT && s[i] != MINUS
  {
    if exponent.Some? {
      SomeExponentIsFound(s, i, exponent.value);
    }
  }

  lemma DigitsStart(s: bytes, i: nat, digits: bytes)
    requires Digits(digits) && Has(s, i, digits) && Terminated(s, i + |digits|)
    ensures i < |s| ==> s[i] != PLUS && s[i] != MINUS
  {
    if digits != [] {
      assert digits[0] in digits;
    }
  }

  lemma SomeExponentIsFound(s: bytes, i: nat, e: Exponent)
    requires GoodExponent(e)
    requires Has(s, i, ExponentText(Some(e))) && Terminated(s, i + |ExponentText(Some(e))|)
    ensures FindExponent(s, i) == (Some(e), i + |ExponentText(Some(e))|) && i < |s| && s[i] == e.letter
  {
    hide Has, SkipDigits, FindExponent, Digits;
    var j := i + 1 + |OptionalText(e.sign)|;
    assert i < |s| && s[i] == e.letter && Has(s, i + 1, OptionalText(e.sign)) && Has(s, j, e.digits) by {
      ExponentSplit(s, i, e);
    }
    assert j + |e.digits| == i + |ExponentText(Some(e))| by {
      ExponentSplit(s, i, e);
    }
    SignIsFound(s, i + 1, e);
    DigitsAreFound(s, j, e.digits);
    ExponentAssembled(s, i, e, j);
  }

  lemma ExponentAssembled(s: bytes, i: nat, e: Exponent, j: nat)
    requires GoodExponent(e) && i < |s| && s[i] == e.letter && j == i + 1 + |OptionalText(e.sign)| && j + |e.digits| <= |s|
    requires e.sign == if i + 1 < |s| && (s[i + 1] == PLUS || s[i + 1] == MINUS) then Some(s[i + 1]) else None
    requires SkipDigits(s, j) == j + |e.digits| && s[j..j + |e.digits|] == e.digits
    ensures FindExponent(s, i) == (Some(e), j + |e.digits|)
  {
    hide Has, SkipDigits;
  }

  lemma SignIsFound(s: bytes, i: nat, e: Exponent)
    requires GoodExponent(e) && Has(s, i, OptionalText(e.sign)) && Has(s, i + |OptionalText(e.sign)|, e.digits)
    requires Terminated(s, i + |OptionalText(e.sign)| + |e.digits|)
    ensures e.sign == if i < |s| && (s[i] == PLUS || s[i] == MINUS) then Some(s[i]) else None
  {
    if e.sign.Some? {
      HasOne(s, i, e.sign.value);
    } else {
      DigitsStart(s, i, e.digits);
    }
  }

  lemma DigitsAreFound(s: bytes, i: nat, digits: bytes)
    requires Digits(digits) && Has(s, i, digits) && i + |digits| <= |s|
    requires i + |digits| < |s| ==> !IsDigit(s[i + |digits|])
    ensures SkipDigits(s, i) == i + |digits| && s[i..i + |digits|] == digits
  {
    HasSlice(s, i, digits);
    SkipDigitsExactly(s, i, digits);
  }

  lemma NumeralIsFound(s: bytes, i: nat, n: Numeral, end: nat)
    requires GoodNumeral(n) && Has(s, i, NumeralText(n)) && end == i + |NumeralText(n)| && Terminated(s, end)
    ensures FindNumeral(s, i) == Parsed(n, end)
  {
    var a := i + |SignText(n.minus)|;
    var b := a + |n.whole|;
    var c := b + |FractionText(n.fraction)|;
    hide Has, FindNumeral, NumeralText, Terminated;
    NumeralSplit(s, i, n);
    PartsAreFound(s, i, n, b, c, end);
  }

  lemma PartsAreFound(s: bytes, i: nat, n: Numeral, b: nat, c: nat, end: nat)
    requires GoodNumeral(n) && Has(s, i, SignText(n.minus)) && Has(s, i + |SignText(n.minus)|, n.whole)
    requires Has(s, b, FractionText(n.fraction)) && Has(s, c, ExponentText(n.exponent))
    requires b == i + |SignText(n.minus)| + |n.whole| && c == b + |FractionText(n.fraction)|
    requires end == c + |ExponentText(n.exponent)| == i + |NumeralText(n)| && Terminated(s, end)
    ensures FindNumeral(s, i) == Parsed(n, end)
  {
    ExponentIsFound(s, c, n.exponent, end);
    FractionIsFound(s, b, n.fraction, c);
    WholeIsFound(s, i, n, b);
    NumeralAssembled(s, i, n, b, c, end);
  }

  lemma NumeralAssembled(s: bytes, i: nat, n: Numeral, b: nat, c: nat, end: nat)
    requires i <= b <= c <= end <= |s| && i < end && i + |SignText(n.minus)| <= b
    requires var (read, _) := NumeralAt(s, i); read.minus == n.minus && read.whole == n.whole
    requires SkipDigits(s, i + |SignText(n.minus)|) == b
    requires FindFraction(s, b) == (n.fraction, c)
    requires FindExponent(s, c) == (n.exponent, end)
    ensures FindNumeral(s, i) == Parsed(n, end)
  {
  }

  /** The sign and the digits before the point are read as written. */
  lemma WholeIsFound(s: bytes, i: nat, n: Numeral, b: nat)
    requires Digits(n.whole) && b == i + |SignText(n.minus)| + |n.whole|
    requires Has(s, i, SignText(n.minus)) && Has(s, i + |SignText(n.minus)|, n.whole)
    requires b < |s| ==> !IsDigit(s[b]) && s[b] != MINUS
    ensures var (read, _) := NumeralAt(s, i); read.minus == n.minus && read.whole == n.whole
    ensures SkipDigits(s, i + |SignText(n.minus)|) == b
  {
    hide Has, SkipDigits, FindFraction, FindExponent;
    if n.minus {
      HasOne(s, i, MINUS);
    }
    HasBounds(s, i + |SignText(n.minus)|, n.whole);
    DigitsAreFound(s, i + |SignText(n.minus)|, n.whole);
    if !n.minus && n.whole != [] {
      FirstByte(s, i, n.whole);
    }
  }

  lemma FirstByte(s: bytes, i: nat, t: bytes)
    requires t != [] && Has(s, i, t)
    ensures i < |s| && s[i] == t[0] && t[0] in t
  {
  }

  // ----- Values -----

  function WordAt(s: bytes, i: nat): (r: Option<bytes>)
    ensures r.Some? ==> Good(Word(r.value)) && Has(s, i, r.value)
  {
    if Has(s, i, TRUE_WORD) then Some(TRUE_WORD)
    else if Has(s, i, FALSE_WORD) then Some(FALSE_WORD)
    else if Has(s, i, NULL_WORD) then Some(NULL_WORD)
    else None
  }

  /** The value at `p`, where no blank stands, inside `d` containers. */
  function FindValue(s: bytes, p: nat, d: nat): (r: Parsed<Value>)
    requires p <= |s|
    ensures r.Parsed? ==> p < r.end <= |s|
    decreases |s| - p, 0
  {
    if d > MAX_NESTING || p == |s| then Fail
    else if s[p] == OPEN_BRACE then
      var q := SkipBlanks(s, p + 1);
      if q < |s| && s[q] == CLOSE_BRACE then Parsed(EmptyObject(s[p + 1..q]), q + 1)
      else
        var members := FindMembers(s, p + 1, d + 1, []);
        if members.Fail? then Fail else Parsed(Object(members.tree), members.end)
    else if s[p] == OPEN_BRACKET then
      var q := SkipBlanks(s, p + 1);
      if q < |s| && s[q] == CLOSE_BRACKET then Parsed(EmptyArray(s[p + 1..q]), q + 1)
      else
        var items := FindItems(s, p + 1, d + 1);
        if items.Fail? then Fail else Parsed(Array(items.tree), items.end)
    else if s[p] == QUOTE then
      var pieces := FindString(s, p);
      if pieces.Fail? then Fail else Parsed(Text(pieces.tree), pieces.end)
    else if s[p] == TRUE_WORD[0] || s[p] == FALSE_WORD[0] || s[p] == NULL_WORD[0] then
      var word := WordAt(s, p);
      if word.None? then Fail
      else
        HasBounds(s, p, word.value);
        Parsed(Word(word.value), p + |word.value|)
    else
      var numeral := FindNumeral(s, p);
      if numeral.Fail? then Fail else Parsed(Number(numeral.tree), numeral.end)
  }

  /** A value and the blanks on both sides of it. */
  function FindPadded(s: bytes, i: nat, d: nat): (r: Parsed<Padded>)
    requires i <= |s|
    ensures r.Parsed? ==> i < r.end <= |s|
    decreases |s| - i, 1
  {
    var p := SkipBlanks(s, i);
    var value := FindValue(s, p, d);
    if value.Fail? then Fail
    else
      var end := SkipBlanks(s, value.end);
      Parsed(Padded(s[i..p], value.tree, s[value.end..end]), end)
  }

  /** A key and the blanks on both sides of it. */
  function FindKey(s: bytes, i: nat): (r: Parsed<Key>)
    requires i <= |s|
    ensures r.Parsed? ==> GoodPieces(r.tree.pieces) && i < r.end <= |s|
  {
    var p := SkipBlanks(s, i);
    var pieces := FindString(s, p);
    if pieces.Fail? then Fail
    else
      var end := SkipBlanks(s, pieces.end);
      Parsed(Key(s[i..p], pieces.tree, s[pieces.end..end]), end)
  }

  /** The items from `i`, leading blanks included, to the closing bracket. */
  function FindItems(s: bytes, i: nat, d: nat): (r: Parsed<Items>)
    requires i <= |s|
    ensures r.Parsed? ==> i < r.end <= |s|
    decreases |s| - i, 2
  {
    var head := FindPadded(s, i, d);
    if head.Fail? || head.end == |s| then Fail
    else if s[head.end] == CLOSE_BRACKET then Parsed(Items(head.tree, None), head.end + 1)
    else if s[head.end] != COMMA then Fail
    else
      var rest := FindItems(s, head.end + 1, d);
      if rest.Fail? then Fail else Parsed(Items(head.tree, Some(rest.tree)), rest.end)
  }

  /** The members from `i` to the closing brace, none of whose keys is among `keys`. */
  function FindMembers(s: bytes, i: nat, d: nat, keys: seq<bytes>): (r: Parsed<Members>)
    requires i <= |s|
    ensures r.Parsed? ==> i < r.end <= |s|
    decreases |s| - i, 2
  {
    var key := FindKey(s, i);
    if key.Fail? || PiecesValue(key.tree.pieces) in keys || key.end == |s| || s[key.end] != COLON then Fail
    else
      var head := FindPadded(s, key.end + 1, d);
      if head.Fail? || head.end == |s| then Fail
      else if s[head.end] == CLOSE_BRACE then Parsed(Members(key.tree, head.tree, None), head.end + 1)
      else if s[head.end] != COMMA then Fail
      else
        var rest := FindMembers(s, head.end + 1, d, keys + [PiecesValue(key.tree.pieces)]);
        if rest.Fail? then Fail else Parsed(Members(key.tree, head.tree, Some(rest.tree)), rest.end)
  }

  // ----- What is parsed is there -----

  lemma HasCons(s: bytes, i: nat, b: byte, t: bytes)
    ensures Has(s, i, [b] + t) <==> i < |s| && s[i] == b && Has(s, i + 1, t)
  {
    assert ([b] + t)[1..] == t;
  }

  lemma BlanksAreThere(s: bytes, i: nat)
    requires i <= |s|
    ensures var p := SkipBlanks(s, i); Has(s, i, s[i..p]) && Blanks(s[i..p]) && i + |s[i..p]| == p
  {
    HasSlice(s, i, s[i..SkipBlanks(s, i)]);
  }

  /** Text between blanks: `before`, then `middle`, then `after`. */
  lemma PaddingSplit(s: bytes, i: nat, before: bytes, middle: bytes, after: bytes)
    ensures Has(s, i, before + (middle + after)) <==>
            Has(s, i, before) && Has(s, i + |before|, middle) && Has(s, i + |before| + |middle|, after)
  {
    HasSplit(s, i, before, middle + after);
    HasSplit(s, i + |before|, middle, after);
  }

  lemma KeyIsThere(s: bytes, i: nat)
    requires i <= |s| && FindKey(s, i).Parsed?
    ensures var key, end := FindKey(s, i).tree, FindKey(s, i).end;
            GoodKey(key) && Has(s, i, KeyText(key)) && end == i + |KeyText(key)|
  {
    var key, end := FindKey(s, i).tree, FindKey(s, i).end;
    var p := SkipBlanks(s, i);
    BlanksAreThere(s, i);
    StringIsThere(s, p);
    BlanksAreThere(s, FindString(s, p).end);
    PaddingSplit(s, i, key.before, StringText(key.pieces), key.after);
  }

  lemma {:induction false} PaddedIsThere(s: bytes, i: nat, d: nat)
    requires i <= |s| && FindPadded(s, i, d).Parsed?
    ensures var r := FindPadded(s, i, d);
            && GoodPadded(r.tree) && d + Depth(r.tree.value) <= MAX_NESTING
            && Has(s, i, PaddedText(r.tree)) && r.end == i + |PaddedText(r.tree)|
    decreases |s| - i, 1
  {
    hide FindValue, SkipBlanks, Good, Depth, Has, ValueText, Blanks;
    var r := FindPadded(s, i, d);
    var p := SkipBlanks(s, i);
    BlanksAreThere(s, i);
    ValueIsThere(s, p, d);
    BlanksAreThere(s, FindValue(s, p, d).end);
    PaddingSplit(s, i, r.tree.before, ValueText(r.tree.value), r.tree.after);
  }

  lemma EmptyIsThere(s: bytes, p: nat, first: byte, last: byte)
    requires p < |s| && s[p] == first
    requires var q := SkipBlanks(s, p + 1); q < |s| && s[q] == last
    ensures var blanks := s[p + 1..SkipBlanks(s, p + 1)];
            Blanks(blanks) && Has(s, p, [first] + (blanks + [last]))
  {
    var q := SkipBlanks(s, p + 1);
    var blanks := s[p + 1..q];
    BlanksAreThere(s, p + 1);
    HasOne(s, q, last);
    HasSplit(s, p + 1, blanks, [last]);
    HasCons(s, p, first, blanks + [last]);
  }

  lemma {:induction false} ValueIsThere(s: bytes, p: nat, d: nat)
    requires p <= |s| && FindValue(s, p, d).Parsed?
    ensures var v, end := FindValue(s, p, d).tree, FindValue(s, p, d).end;
            Good(v) && d + Depth(v) <= MAX_NESTING && Has(s, p, ValueText(v)) && end == p + |ValueText(v)|
    decreases |s| - p, 0
  {
    if s[p] == OPEN_BRACE {
      ObjectIsThere(s, p, d);
    } else if s[p] == OPEN_BRACKET {
      ArrayIsThere(s, p, d);
    } else if s[p] == QUOTE {
      StringIsThere(s, p);
    } else {
      ScalarIsThere(s, p, d);
    }
  }

  lemma ScalarIsThere(s: bytes, p: nat, d: nat)
    requires p < |s| && FindValue(s, p, d).Parsed? && s[p] != OPEN_BRACE && s[p] != OPEN_BRACKET && s[p] != QUOTE
    ensures var v, end := FindValue(s, p, d).tree, FindValue(s, p, d).end;
            Good(v) && Depth(v) == 0 && Has(s, p, ValueText(v)) && end == p + |ValueText(v)|
  {
    if s[p] != TRUE_WORD[0] && s[p] != FALSE_WORD[0] && s[p] != NULL_WORD[0] {
      NumeralIsThere(s, p);
    }
  }

  lemma {:induction false} ObjectIsThere(s: bytes, p: nat, d: nat)
    requires p < |s| && FindValue(s, p, d).Parsed? && s[p] == OPEN_BRACE
    ensures var v, end := FindValue(s, p, d).tree, FindValue(s, p, d).end;
            Good(v) && d + Depth(v) <= MAX_NESTING && Has(s, p, ValueText(v)) && end == p + |ValueText(v)|
    decreases |s| - p - 1, 4
  {
    var q := SkipBlanks(s, p + 1);
    if q < |s| && s[q] == CLOSE_BRACE {
      EmptyIsThere(s, p, OPEN_BRACE, CLOSE_BRACE);
    } else {
      MembersAreThere(s, p + 1, d + 1, []);
      var members := FindMembers(s, p + 1, d + 1, []).tree;
      assert [] + Keys(members) == Keys(members);
      HasCons(s, p, OPEN_BRACE, MembersText(members));
    }
  }

  lemma {:induction false} ArrayIsThere(s: bytes, p: nat, d: nat)
    requires p < |s| && FindValue(s, p, d).Parsed? && s[p] == OPEN_BRACKET
    ensures var v, end := FindValue(s, p, d).tree, FindValue(s, p, d).end;
            Good(v) && d + Depth(v) <= MAX_NESTING && Has(s, p, ValueText(v)) && end == p + |ValueText(v)|
    decreases |s| - p - 1, 4
  {
    var q := SkipBlanks(s, p + 1);
    if q < |s| && s[q] == CLOSE_BRACKET {
      EmptyIsThere(s, p, OPEN_BRACKET, CLOSE_BRACKET);
    } else {
      ItemsAreThere(s, p + 1, d + 1);
      HasCons(s, p, OPEN_BRACKET, ItemsText(FindItems(s, p + 1, d + 1).tree));
    }
  }

  lemma {:induction false} ItemsAreThere(s: bytes, i: nat, d: nat)
    requires i <= |s| && FindItems(s, i, d).Parsed?
    ensures var r := FindItems(s, i, d);
            && GoodItems(r.tree) && d + ItemsDepth(r.tree) <= MAX_NESTING
            && Has(s, i, ItemsText(r.tree)) && r.end == i + |ItemsText(r.tree)|
    decreases |s| - i, 2
  {
    hide FindPadded, Good, Depth;
    var items, head := FindItems(s, i, d).tree, FindPadded(s, i, d);
    PaddedIsThere(s, i, d);
    if items.rest.None? {
      HasOne(s, head.end, CLOSE_BRACKET);
      HasSplit(s, i, PaddedText(head.tree), [CLOSE_BRACKET]);
    } else {
      var rest := items.rest.value;
      ItemsAreThere(s, head.end + 1, d);
      HasCons(s, head.end, COMMA, ItemsText(rest));
      HasSplit(s, i, PaddedText(head.tree), [COMMA] + ItemsText(rest));
    }
  }

  predicate MembersThere(s: bytes, i: nat, d: nat, keys: seq<bytes>, m: Members, end: nat) {
    && GoodMembers(m) && GoodKeys(m) && NoDuplicates(keys + Keys(m)) && d + MembersDepth(m) <= MAX_NESTING
    && Has(s, i, MembersText(m)) && end == i + |MembersText(m)|
  }

  lemma {:induction false} MembersAreThere(s: bytes, i: nat, d: nat, keys: seq<bytes>)
    requires i <= |s| && FindMembers(s, i, d, keys).Parsed? && NoDuplicates(keys)
    ensures MembersThere(s, i, d, keys, FindMembers(s, i, d, keys).tree, FindMembers(s, i, d, keys).end)
    decreases |s| - i, 2
  {
    hide FindPadded, FindKey, PiecesValue, Good, GoodKey, Depth, Has, NoDuplicates, MembersThere;
    var r, key := FindMembers(s, i, d, keys), FindKey(s, i);
    var head := FindPadded(s, key.end + 1, d);
    KeyIsThere(s, i);
    PaddedIsThere(s, key.end + 1, d);
    if r.tree.rest.None? {
      LastMember(s, i, d, keys, r.tree, key.end, head.end);
    } else {
      AddKey(keys, PiecesValue(key.tree.pieces));
      MembersAreThere(s, head.end + 1, d, keys + [PiecesValue(key.tree.pieces)]);
      OneMoreMember(s, i, d, keys, r.tree, key.end, head.end, r.end);
    }
  }

  lemma AddKey(keys: seq<bytes>, key: bytes)
    requires NoDuplicates(keys) && key !in keys
    ensures NoDuplicates(keys + [key])
  {
  }

  lemma LastMember(s: bytes, i: nat, d: nat, keys: seq<bytes>, m: Members, c: nat, e: nat)
    requires m.rest.None? && GoodKey(m.key) && GoodPadded(m.head) && d + Depth(m.head.value) <= MAX_NESTING
    requires NoDuplicates(keys) && PiecesValue(m.key.pieces) !in keys
    requires Has(s, i, KeyText(m.key)) && c == i + |KeyText(m.key)| < |s| && s[c] == COLON
    requires Has(s, c + 1, PaddedText(m.head)) && e == c + 1 + |PaddedText(m.head)| < |s| && s[e] == CLOSE_BRACE
    ensures MembersThere(s, i, d, keys, m, e + 1)
  {
    hide Has, Good, KeyText, PaddedText;
    assert keys + Keys(m) == keys + [PiecesValue(m.key.pieces)];
    HasOne(s, e, CLOSE_BRACE);
    MemberSplit(s, i, m.key, m.head, [CLOSE_BRACE]);
  }

  lemma OneMoreMember(s: bytes, i: nat, d: nat, keys: seq<bytes>, m: Members, c: nat, e: nat, end: nat)
    requires m.rest.Some? && GoodKey(m.key) && GoodPadded(m.head) && d + Depth(m.head.value) <= MAX_NESTING
    requires Has(s, i, KeyText(m.key)) && c == i + |KeyText(m.key)| < |s| && s[c] == COLON
    requires Has(s, c + 1, PaddedText(m.head)) && e == c + 1 + |PaddedText(m.head)| < |s| && s[e] == COMMA
    requires MembersThere(s, e + 1, d, keys + [PiecesValue(m.key.pieces)], m.rest.value, end)
    ensures MembersThere(s, i, d, keys, m, end)
  {
    hide Has, Good, KeyText, PaddedText;
    var rest := m.rest.value;
    assert keys + Keys(m) == keys + [PiecesValue(m.key.pieces)] + Keys(rest);
    HasCons(s, e, COMMA, MembersText(rest));
    MemberSplit(s, i, m.key, m.head, [COMMA] + MembersText(rest));
  }

  lemma MemberSplit(s: bytes, i: nat, key: Key, head: Padded, tail: bytes)
    ensures var c := i + |KeyText(key)|;
            Has(s, i, KeyText(key) + ([COLON] + (PaddedText(head) + tail))) <==>
            && Has(s, i, KeyText(key)) && c < |s| && s[c] == COLON
            && Has(s, c + 1, PaddedText(head)) && Has(s, c + 1 + |PaddedText(head)|, tail)
  {
    var c := i + |KeyText(key)|;
    HasSplit(s, c + 1, PaddedText(head), tail);
    HasCons(s, c, COLON, PaddedText(head) + tail);
    HasSplit(s, i, KeyText(key), [COLON] + (PaddedText(head) + tail));
  }

  // ----- What is there is parsed -----

  lemma BlanksAreFound(s: bytes, i: nat, blanks: bytes)
    requires Has(s, i, blanks) && Blanks(blanks)
    requires i + |blanks| < |s| ==> !IsWhitespace(s[i + |blanks|])
    ensures i + |blanks| <= |s| && SkipBlanks(s, i) == i + |blanks| && s[i..i + |blanks|] == blanks
  {
    HasBounds(s, i, blanks);
    HasSlice(s, i, blanks);
    SkipBlanksExactly(s, i, blanks);
  }

  /** What follows the end of `blanks` decides what follows their start. */
  lemma BlanksThenTerminated(s: bytes, i: nat, blanks: bytes)
    requires Has(s, i, blanks) && Blanks(blanks) && Terminated(s, i + |blanks|)
    ensures Terminated(s, i)
  {
    if blanks != [] {
      assert blanks[0] in blanks;
    }
  }

  lemma KeyIsFound(s: bytes, i: nat, key: Key, end: nat)
    requires GoodKey(key) && Has(s, i, KeyText(key)) && end == i + |KeyText(key)|
    requires end < |s| && !IsWhitespace(s[end])
    ensures FindKey(s, i) == Parsed(key, end)
  {
    hide FindString, Blanks, SkipBlanks;
    var p := i + |key.before|;
    var q := p + |StringText(key.pieces)|;
    PaddingSplit(s, i, key.before, StringText(key.pieces), key.after);
    assert s[p] == QUOTE;
    BlanksAreFound(s, i, key.before);
    StringIsFound(s, p, key.pieces);
    BlanksAreFound(s, q, key.after);
  }

  /** Which bytes a value can start with. */
  predicate StartsValue(b: byte) {
    !IsWhitespace(b) && b != CLOSE_BRACKET && b != CLOSE_BRACE && b != COMMA
  }

  lemma NumeralStart(s: bytes, i: nat, n: Numeral)
    requires GoodNumeral(n) && Has(s, i, NumeralText(n))
    ensures i < |s| && StartsValue(s[i]) && s[i] != OPEN_BRACE && s[i] != OPEN_BRACKET && s[i] != QUOTE
    ensures s[i] != TRUE_WORD[0] && s[i] != FALSE_WORD[0] && s[i] != NULL_WORD[0]
  {
    var t := NumeralText(n);
    assert t != [] && s[i] == t[0];
    if n.minus {
    } else if n.whole != [] {
      assert t[0] == n.whole[0] && n.whole[0] in n.whole;
    } else if n.fraction.Some? {
      assert t[0] == DOT;
    } else {
      assert t[0] == n.exponent.value.letter;
    }
  }

  lemma ValueStart(s: bytes, p: nat, v: Value)
    requires Good(v) && Has(s, p, ValueText(v))
    ensures p < |s| && StartsValue(s[p])
  {
    if v.Number? {
      NumeralStart(s, p, v.numeral);
    }
  }

  lemma EmptyIsFound(s: bytes, p: nat, first: byte, blanks: bytes, last: byte)
    requires Blanks(blanks) && Has(s, p, [first] + (blanks + [last])) && !IsWhitespace(last)
    ensures p < |s| && s[p] == first && SkipBlanks(s, p + 1) == p + 1 + |blanks| < |s|
    ensures s[p + 1 + |blanks|] == last && s[p + 1..p + 1 + |blanks|] == blanks
  {
    hide SkipBlanks, Blanks;
    HasCons(s, p, first, blanks + [last]);
    HasSplit(s, p + 1, blanks, [last]);
    HasOne(s, p + 1 + |blanks|, last);
    BlanksAreFound(s, p + 1, blanks);
  }

  lemma {:induction false} ValueIsFound(s: bytes, p: nat, d: nat, v: Value, end: nat)
    requires Good(v) && d + Depth(v) <= MAX_NESTING && Has(s, p, ValueText(v))
    requires end == p + |ValueText(v)| && Terminated(s, end)
    ensures p <= |s| && FindValue(s, p, d) == Parsed(v, end)
    decreases v, 0
  {
    match v {
      case Object(members) =>
        ObjectIsFound(s, p, d, members, end);
      case Array(items) =>
        ArrayIsFound(s, p, d, items, end);
      case _ =>
        ScalarIsFound(s, p, d, v, end);
    }
  }

  lemma ScalarIsFound(s: bytes, p: nat, d: nat, v: Value, end: nat)
    requires Good(v) && d <= MAX_NESTING && Has(s, p, ValueText(v)) && !v.Object? && !v.Array?
    requires end == p + |ValueText(v)| && Terminated(s, end)
    ensures p <= |s| && FindValue(s, p, d) == Parsed(v, end)
  {
    hide FindString, FindNumeral, SkipBlanks, FindMembers, FindItems;
    ValueStart(s, p, v);
    match v {
      case EmptyObject(blanks) => EmptyIsFound(s, p, OPEN_BRACE, blanks, CLOSE_BRACE);
      case EmptyArray(blanks) => EmptyIsFound(s, p, OPEN_BRACKET, blanks, CLOSE_BRACKET);
      case Text(pieces) => StringIsFound(s, p, pieces);
      case Word(word) => WordIsFound(s, p, word);
      case Number(numeral) =>
        NumeralStart(s, p, numeral);
        NumeralIsFound(s, p, numeral, end);
      case _ =>
    }
  }

  lemma WordIsFound(s: bytes, p: nat, word: bytes)
    requires Good(Word(word)) && Has(s, p, word)
    ensures p < |s| && s[p] == word[0] && WordAt(s, p) == Some(word)
  {
    if word == FALSE_WORD {
      assert !Has(s, p, TRUE_WORD);
    } else if word == NULL_WORD {
      assert !Has(s, p, TRUE_WORD) && !Has(s, p, FALSE_WORD);
    }
  }

  lemma {:induction false} ObjectIsFound(s: bytes, p: nat, d: nat, members: Members, end: nat)
    requires var v := Object(members); Good(v) && d + Depth(v) <= MAX_NESTING && Has(s, p, ValueText(v)) && end == p + |ValueText(v)|
    ensures p <= |s| && FindValue(s, p, d) == Parsed(Object(members), end)
    decreases members, 4
  {
    hide FindMembers, SkipBlanks, Has;
    HasCons(s, p, OPEN_BRACE, MembersText(members));
    assert [] + Keys(members) == Keys(members);
    MembersAreFound(s, p + 1, d + 1, [], members, end);
    MembersStart(s, p + 1, members);
  }

  lemma {:induction false} ArrayIsFound(s: bytes, p: nat, d: nat, items: Items, end: nat)
    requires var v := Array(items); Good(v) && d + Depth(v) <= MAX_NESTING && Has(s, p, ValueText(v)) && end == p + |ValueText(v)|
    ensures p <= |s| && FindValue(s, p, d) == Parsed(Array(items), end)
    decreases items, 4
  {
    hide FindItems, SkipBlanks, Has;
    HasCons(s, p, OPEN_BRACKET, ItemsText(items));
    ItemsAreFound(s, p + 1, d + 1, items, end);
    ItemsStart(s, p + 1, items);
  }

  lemma ItemsStart(s: bytes, i: nat, items: Items)
    requires GoodItems(items) && Has(s, i, ItemsText(items)) && i <= |s|
    ensures var q := SkipBlanks(s, i); q < |s| && s[q] != CLOSE_BRACKET
  {
    hide SkipBlanks, Blanks, ValueText;
    var head := items.head;
    var tail := if items.rest.None? then [CLOSE_BRACKET] else [COMMA] + ItemsText(items.rest.value);
    HasSplit(s, i, PaddedText(head), tail);
    PaddingSplit(s, i, head.before, ValueText(head.value), head.after);
    ValueStart(s, i + |head.before|, head.value);
    BlanksAreFound(s, i, head.before);
  }

  lemma MembersStart(s: bytes, i: nat, m: Members)
    requires GoodKeys(m) && Has(s, i, MembersText(m)) && i <= |s|
    ensures var q := SkipBlanks(s, i); q < |s| && s[q] != CLOSE_BRACE
  {
    hide SkipBlanks, Blanks, PiecesText, Good;
    var tail := if m.rest.None? then [CLOSE_BRACE] else [COMMA] + MembersText(m.rest.value);
    MemberSplit(s, i, m.key, m.head, tail);
    PaddingSplit(s, i, m.key.before, StringText(m.key.pieces), m.key.after);
    assert s[i + |m.key.before|] == QUOTE;
    BlanksAreFound(s, i, m.key.before);
  }

  lemma {:induction false} PaddedIsFound(s: bytes, i: nat, d: nat, padded: Padded, end: nat)
    requires GoodPadded(padded) && d + Depth(padded.value) <= MAX_NESTING
    requires Has(s, i, PaddedText(padded)) && end == i + |PaddedText(padded)|
    requires end < |s| && (s[end] == COMMA || s[end] == CLOSE_BRACKET || s[end] == CLOSE_BRACE)
    ensures i <= |s| && FindPadded(s, i, d) == Parsed(padded, end)
    decreases padded, 1
  {
    hide FindValue, SkipBlanks, Blanks, Good, Depth, ValueText;
    var p := i + |padded.before|;
    var q := p + |ValueText(padded.value)|;
    PaddingSplit(s, i, padded.before, ValueText(padded.value), padded.after);
    ValueStart(s, p, padded.value);
    BlanksAreFound(s, i, padded.before);
    BlanksAreFound(s, q, padded.after);
    BlanksThenTerminated(s, q, padded.after);
    ValueIsFound(s, p, d, padded.value, q);
  }

  lemma {:induction false} ItemsAreFound(s: bytes, i: nat, d: nat, items: Items, end: nat)
    requires GoodItems(items) && d + ItemsDepth(items) <= MAX_NESTING
    requires Has(s, i, ItemsText(items)) && end == i + |ItemsText(items)|
    ensures i <= |s| && FindItems(s, i, d) == Parsed(items, end)
    decreases items, 2
  {
    hide FindPadded, Has, PaddedText;
    var head := items.head;
    var e := i + |PaddedText(head)|;
    if items.rest.None? {
      HasSplit(s, i, PaddedText(head), [CLOSE_BRACKET]);
      HasOne(s, e, CLOSE_BRACKET);
      PaddedIsFound(s, i, d, head, e);
    } else {
      var rest := items.rest.value;
      HasSplit(s, i, PaddedText(head), [COMMA] + ItemsText(rest));
      HasCons(s, e, COMMA, ItemsText(rest));
      PaddedIsFound(s, i, d, head, e);
      ItemsAreFound(s, e + 1, d, rest, end);
    }
  }

  lemma {:induction false} MembersAreFound(s: bytes, i: nat, d: nat, keys: seq<bytes>, m: Members, end: nat)
    requires GoodMembers(m) && GoodKeys(m) && NoDuplicates(keys + Keys(m)) && d + MembersDepth(m) <= MAX_NESTING
    requires Has(s, i, MembersText(m)) && end == i + |MembersText(m)|
    ensures i <= |s| && FindMembers(s, i, d, keys) == Parsed(m, end)
    decreases m, 2
  {
    hide FindMembers, FindPadded, FindKey, PiecesValue, Has, PaddedText, KeyText, NoDuplicates, Blanks, GoodPiece;
    var c := i + |KeyText(m.key)|;
    var e := c + 1 + |PaddedText(m.head)|;
    var name := PiecesValue(m.key.pieces);
    if m.rest.None? {
      MemberSplit(s, i, m.key, m.head, [CLOSE_BRACE]);
      HasOne(s, e, CLOSE_BRACE);
      KeyIsFound(s, i, m.key, c);
      PaddedIsFound(s, c + 1, d, m.head, e);
      FirstKeyIsNew(keys, name, []);
      MemberAssembled(s, i, d, keys, m, c, e, end);
    } else {
      var rest := m.rest.value;
      MemberSplit(s, i, m.key, m.head, [COMMA] + MembersText(rest));
      HasCons(s, e, COMMA, MembersText(rest));
      KeyIsFound(s, i, m.key, c);
      PaddedIsFound(s, c + 1, d, m.head, e);
      FirstKeyIsNew(keys, name, Keys(rest));
      MembersAreFound(s, e + 1, d, keys + [name], rest, end);
      MemberAssembled(s, i, d, keys, m, c, e, end);
    }
  }

  lemma MemberAssembled(s: bytes, i: nat, d: nat, keys: seq<bytes>, m: Members, c: nat, e: nat, end: nat)
    requires i <= |s| && c < |s| && e < |s| && d <= MAX_NESTING && GoodPieces(m.key.pieces)
    requires FindKey(s, i) == Parsed(m.key, c) && s[c] == COLON && FindPadded(s, c + 1, d) == Parsed(m.head, e)
    requires PiecesValue(m.key.pieces) !in keys
    requires if m.rest.None? then s[e] == CLOSE_BRACE && end == e + 1
             else s[e] == COMMA && e + 1 <= |s| &&
                  FindMembers(s, e + 1, d, keys + [PiecesValue(m.key.pieces)]) == Parsed(m.rest.value, end)
    ensures FindMembers(s, i, d, keys) == Parsed(m, end)
  {
    hide FindPadded, FindKey, PiecesValue;
  }

  lemma FirstKeyIsNew(keys: seq<bytes>, name: bytes, more: seq<bytes>)
    requires NoDuplicates(keys + ([name] + more))
    ensures name !in keys && NoDuplicates(keys + [name] + more)
  {
    var all := keys + ([name] + more);
    assert all[|keys|] == name && forall k :: 0 <= k < |keys| ==> all[k] == keys[k];
    assert all == keys + [name] + more;
  }

  // ----- The whole document -----

  /** What `duplicateFree` decides. */
  predicate Accepts(s: bytes) {
    var value := FindValue(s, SkipBlanks(s, 0), 0);
    value.Parsed? && SkipBlanks(s, value.end) == |s|
  }

  /**
   * The scanner accepts exactly the documents of the grammar: one value, blanks around it,
   * nesting within the limit, and no object with two keys equal after decoding.
   */
  lemma AcceptsExactlyDocuments(s: bytes)
    ensures Accepts(s) <==> Document(s)
  {
    hide FindValue, SkipBlanks, Good, Depth, Blanks, ValueText, Has;
    if Accepts(s) {
      AcceptedIsDocument(s);
    }
    forall before, v, after | IsDocument(s, before, v, after)
      ensures Accepts(s)
    {
      DocumentIsAccepted(s, before, v, after);
    }
  }

  lemma AcceptedIsDocument(s: bytes)
    requires Accepts(s)
    ensures Document(s)
  {
    hide FindValue, SkipBlanks, Good, Depth, Blanks, ValueText, Has;
    var p := SkipBlanks(s, 0);
    var value := FindValue(s, p, 0);
    ValueIsThere(s, p, 0);
    BlanksAreThere(s, 0);
    BlanksAreThere(s, value.end);
    HasSlice(s, p, ValueText(value.tree));
    var before, after := s[..p], s[value.end..];
    assert s[0..p] == before && s[value.end..|s|] == after;
    assert s == before + (s[p..value.end] + after);
    assert IsDocument(s, before, value.tree, after);
  }

  lemma DocumentIsAccepted(s: bytes, before: bytes, v: Value, after: bytes)
    requires IsDocument(s, before, v, after)
    ensures Accepts(s)
  {
    hide FindValue, SkipBlanks, Good, Depth, Blanks, ValueText;
    var p := |before|;
    var q := p + |ValueText(v)|;
    assert s[0..0 + |s|] == s;
    HasSlice(s, 0, s);
    PaddingSplit(s, 0, before, ValueText(v), after);
    ValueStart(s, p, v);
    BlanksAreFound(s, 0, before);
    BlanksAreFound(s, q, after);
    BlanksThenTerminated(s, q, after);
    ValueIsFound(s, p, 0, v, q);
  }

  // ----- The scanner itself -----

  /** Two searches that agree on success and on the end. */
  predicate SameEnd<T>(a: Parsed<T>, b: Parsed<T>) {
    a.Parsed? == b.Parsed? && (a.Parsed? ==> a.end == b.end)
  }

  lemma BlanksSkippedOnce(s: bytes, i: nat)
    requires i <= |s|
    ensures SkipBlanks(s, SkipBlanks(s, i)) == SkipBlanks(s, i)
  {
  }

  lemma MembersAfterBlanks(s: bytes, i: nat, d: nat, keys: seq<bytes>)
    requires i <= |s|
    ensures SameEnd(FindMembers(s, SkipBlanks(s, i), d, keys), FindMembers(s, i, d, keys))
  {
    hide FindPadded, FindString, SkipBlanks, PiecesValue;
    BlanksSkippedOnce(s, i);
  }

  lemma ItemsAfterBlanks(s: bytes, i: nat, d: nat)
    requires i <= |s|
    ensures SameEnd(FindItems(s, SkipBlanks(s, i), d), FindItems(s, i, d))
  {
    hide FindValue, SkipBlanks;
    BlanksSkippedOnce(s, i);
  }

  lemma {:induction false} PiecesValueAppend(pieces: seq<Piece>, piece: Piece)
    requires GoodPieces(pieces) && GoodPiece(piece)
    ensures GoodPieces(pieces + [piece]) && PiecesValue(pieces + [piece]) == PiecesValue(pieces) + PieceValue(piece)
  {
    hide PieceValue, GoodPiece;
    if pieces == [] {
      assert [piece][1..] == [];
    } else {
      PiecesValueAppend(pieces[1..], piece);
      assert (pieces + [piece])[1..] == pieces[1..] + [piece];
    }
  }

  /** The pieces already read, then the rest. */
  function After(done: seq<Piece>, rest: Parsed<seq<Piece>>): Parsed<seq<Piece>> {
    if rest.Fail? then Fail else Parsed(done + rest.tree, rest.end)
  }

  lemma NothingDone(rest: Parsed<seq<Piece>>)
    ensures After([], rest) == rest
  {
    if rest.Parsed? {
      assert [] + rest.tree == rest.tree;
    }
  }

  lemma AfterOneMore(s: bytes, i: nat, done: seq<Piece>, piece: Piece)
    requires i < |s| && s[i] != QUOTE && FindPiece(s, i) == Some(piece)
    ensures After(done, FindPieces(s, i)) == After(done + [piece], FindPieces(s, i + |PieceText(piece)|))
  {
    hide FindPiece, PieceText;
    var rest := FindPieces(s, i + |PieceText(piece)|);
    if rest.Parsed? {
      assert done + ([piece] + rest.tree) == done + [piece] + rest.tree;
    }
  }

  /** The number that the first `k` hexadecimal digits at `i` make. */
  function HexPrefix(s: bytes, i: nat, k: nat): int
    requires i + k <= |s|
  {
    if k == 0 then 0 else HexPrefix(s, i, k - 1) * 0x10 + HexValue(s[i + k - 1])
  }

  function HexLimit(k: nat): nat {
    if k == 0 then 1 else 0x10 * HexLimit(k - 1)
  }

  lemma HexPrefixIsNumber(s: bytes, i: nat)
    requires i + 4 <= |s|
    ensures HexAt(s, i) ==> HexPrefix(s, i, 4) == QuadNumber(QuadAt(s, i))
    ensures HexLimit(3) == 0x1000 && HexLimit(2) == 0x100 && HexLimit(1) == 0x10 && HexLimit(0) == 1
  {
    hide HexValue;
    assert HexPrefix(s, i, 0) == 0;
    assert HexPrefix(s, i, 1) == HexValue(s[i]);
    assert HexPrefix(s, i, 2) == HexValue(s[i]) * 0x10 + HexValue(s[i + 1]);
    assert HexPrefix(s, i, 3) == HexValue(s[i]) * 0x100 + HexValue(s[i + 1]) * 0x10 + HexValue(s[i + 2]);
  }

  class JsonScanner {
    const json: bytes
    var position: nat

    constructor (json: bytes)
      ensures this.json == json && position == 0
    {
      this.json := json;
      this.position := 0;
    }

    method SkipWhitespace()
      requires position <= |json|
      modifies this
      ensures position == SkipBlanks(json, old(position))
    {
      while position < |json| && IsWhitespace(json[position])
        invariant old(position) <= position <= |json|
        invariant SkipBlanks(json, position) == SkipBlanks(json, old(position))
      {
        position := position + 1;
      }
    }

    method Consume(expected: byte) returns (ok: bool)
      requires position <= |json|
      modifies this
      ensures ok <==> old(position) < |json| && json[old(position)] == expected
      ensures position == if ok then old(position) + 1 else old(position)
    {
      if position >= |json| || json[position] != expected {
        return false;
      }
      position := position + 1;
      ok := true;
    }

    /** Four hexadecimal digits, most significant first. */
    method ReadUnicodeEscape() returns (ok: bool, codeUnit: nat)
      requires position <= |json|
      modifies this
      ensures old(position) <= position <= |json|
      ensures ok <==> HexAt(json, old(position))
      ensures ok ==> codeUnit == QuadNumber(QuadAt(json, old(position))) && position == old(position) + 4
    {
      hide HexValue, QuadNumber;
      codeUnit := 0;
      if position + 4 > |json| {
        return false, 0;
      }
      ghost var start := position;
      HexPrefixIsNumber(json, start);
      var index := 0;
      while index < 4
        invariant 0 <= index <= 4 && position == start + index && start + 4 <= |json|
        invariant forall k :: start <= k < position ==> HexValue(json[k]) >= 0
        invariant codeUnit == HexPrefix(json, start, index) < HexLimit(index)
      {
        var digit := HexValue(json[position]);
        position := position + 1;
        if digit < 0 {
          return false, 0;
        }
        codeUnit := (codeUnit * 0x10 + digit) % 0x10000;
        index := index + 1;
      }
      ok := true;
    }

    /** `parseString`: on success `output` is the decoded text. */
    method ParseString() returns (ok: bool, output: bytes)
      requires position <= |json|
      modifies this
      ensures old(position) <= position <= |json|
      ensures ok <==> FindString(json, old(position)).Parsed?
      ensures ok ==> position == FindString(json, old(position)).end
      ensures ok ==> output == PiecesValue(FindString(json, old(position)).tree)
    {
      hide FindPiece, PieceText, PieceValue;
      output := [];
      var quoted := Consume(QUOTE);
      if !quoted {
        return false, [];
      }
      ghost var start := position;
      ghost var done: seq<Piece> := [];
      NothingDone(FindPieces(json, start));
      while position < |json|
        invariant start <= position <= |json| && GoodPieces(done) && output == PiecesValue(done)
        invariant FindPieces(json, start) == After(done, FindPieces(json, position))
        decreases |json| - position
      {
        if json[position] == QUOTE {
          position := position + 1;
          assert done + [] == done;
          return true, output;
        }
        ghost var at := position;
        var read, value := ParsePiece();
        if !read {
          return false, [];
        }
        AfterOneMore(json, at, done, FindPiece(json, at).value);
        PiecesValueAppend(done, FindPiece(json, at).value);
        done := done + [FindPiece(json, at).value];
        output := output + value;
      }
      ok := false;
    }

    /** The body of the string loop for a byte other than the closing quote. */
    method ParsePiece() returns (ok: bool, value: bytes)
      requires position < |json| && json[position] != QUOTE
      modifies this
      ensures old(position) < position <= |json|
      ensures ok <==> FindPiece(json, old(position)).Some?
      ensures ok ==> position == old(position) + |PieceText(FindPiece(json, old(position)).value)|
      ensures ok ==> value == PieceValue(FindPiece(json, old(position)).value)
    {
      value := [];
      var character := json[position];
      position := position + 1;
      if character < 0x20 {
        return false, [];
      }
      if character != BACKSLASH {
        return true, [character];
      }
      if position >= |json| {
        return false, [];
      }
      var escape := json[position];
      position := position + 1;
      if ShortValue(escape).Some? {
        return true, [ShortValue(escape).value];
      }
      if escape != LETTER_U {
        return false, [];
      }
      ok, value := ParseUnicode();
    }

    /** What follows `\u`: one code unit, or the first half of a surrogate pair and its second. */
    method ParseUnicode() returns (ok: bool, value: bytes)
      requires 2 <= position <= |json| && json[position - 2] == BACKSLASH && json[position - 1] == LETTER_U
      modifies this
      ensures old(position) <= position <= |json|
      ensures ok <==> FindPiece(json, old(position) - 2).Some?
      ensures ok ==> position == old(position) - 2 + |PieceText(FindPiece(json, old(position) - 2).value)|
      ensures ok ==> value == PieceValue(FindPiece(json, old(position) - 2).value)
    {
      hide EncodeChar;
      value := [];
      var read, codeUnit := ReadUnicodeEscape();
      if !read {
        return false, [];
      }
      if 0xD800 <= codeUnit <= 0xDBFF {
        if position + 1 >= |json| || json[position] != BACKSLASH || json[position + 1] != LETTER_U {
          return false, [];
        }
        position := position + 2;
        var readLow, low := ReadUnicodeEscape();
        if !readLow || low < 0xDC00 || low > 0xDFFF {
          return false, [];
        }
        return true, EncodeChar(Combine(codeUnit, low));
      }
      if 0xDC00 <= codeUnit <= 0xDFFF {
        return false, [];
      }
      return true, EncodeChar(codeUnit as char);
    }

    method ConsumeLiteral(literal: bytes) returns (ok: bool)
      requires position <= |json|
      modifies this
      ensures old(position) <= position <= |json|
      ensures ok <==> Has(json, old(position), literal)
      ensures ok ==> position == old(position) + |literal|
    {
      var cursor := 0;
      assert literal[0..] == literal;
      while cursor < |literal|
        invariant 0 <= cursor <= |literal| && position == old(position) + cursor <= |json|
        invariant Has(json, old(position), literal) <==> Has(json, position, literal[cursor..])
      {
        if position >= |json| {
          return false;
        }
        var character := json[position];
        position := position + 1;
        if character != literal[cursor] {
          return false;
        }
        assert literal[cursor..][1..] == literal[cursor + 1..];
        cursor := cursor + 1;
      }
      ok := true;
    }

    method SkipDigitRun()
      requires position <= |json|
      modifies this
      ensures position == SkipDigits(json, old(position))
    {
      while position < |json| && IsDigit(json[position])
        invariant old(position) <= position <= |json|
        invariant SkipDigits(json, position) == SkipDigits(json, old(position))
      {
        position := position + 1;
      }
    }

    method ParseNumber() returns (ok: bool)
      requires position <= |json|
      modifies this
      ensures old(position) <= position <= |json|
      ensures ok <==> FindNumeral(json, old(position)).Parsed?
      ensures ok ==> position == FindNumeral(json, old(position)).end
    {
      hide SkipDigits, FindNumeral;
      NumeralEnds(json, position);
      var start := position;
      if position < |json| && json[position] == MINUS {
        position := position + 1;
      }
      SkipDigitRun();
      ghost var whole := position;
      if position < |json| && json[position] == DOT {
        position := position + 1;
        SkipDigitRun();
      }
      assert position == FractionEnd(json, whole);
      ghost var fraction := position;
      if position < |json| && (json[position] == 0x65 || json[position] == 0x45) {
        position := position + 1;
        if position < |json| && (json[position] == PLUS || json[position] == MINUS) {
          position := position + 1;
        }
        SkipDigitRun();
      }
      assert position == ExponentEnd(json, fraction);
      ok := position > start;
    }

    method ParseValue(depth: nat) returns (ok: bool)
      requires position <= |json|
      modifies this
      ensures old(position) <= position <= |json|
      ensures var r := FindValue(json, SkipBlanks(json, old(position)), depth);
              (ok <==> r.Parsed?) && (ok ==> position == r.end)
      decreases |json| - position, 2
    {
      hide FindMembers, FindItems, FindString, FindNumeral, SkipBlanks, Has;
      if depth > MAX_NESTING {
        return false;
      }
      SkipWhitespace();
      if position >= |json| {
        return false;
      }
      var character := json[position];
      if character == OPEN_BRACE {
        ok := ParseObject(depth + 1);
      } else if character == OPEN_BRACKET {
        ok := ParseArray(depth + 1);
      } else if character == QUOTE {
        var ignored;
        ok, ignored := ParseString();
      } else if character == TRUE_WORD[0] {
        LiteralAt(json, position);
        ok := ConsumeLiteral(TRUE_WORD);
      } else if character == FALSE_WORD[0] {
        LiteralAt(json, position);
        ok := ConsumeLiteral(FALSE_WORD);
      } else if character == NULL_WORD[0] {
        LiteralAt(json, position);
        ok := ConsumeLiteral(NULL_WORD);
      } else {
        ok := ParseNumber();
      }
    }

    method ParseObject(depth: nat) returns (ok: bool)
      requires 1 <= depth <= MAX_NESTING + 1 && position < |json| && json[position] == OPEN_BRACE
      modifies this
      ensures old(position) <= position <= |json|
      ensures var r := FindValue(json, old(position), depth - 1);
              (ok <==> r.Parsed?) && (ok ==> position == r.end)
      decreases |json| - position, 1
    {
      hide FindValue, FindMembers, SkipBlanks, MemberAt;
      ObjectAt(json, position, depth - 1);
      ghost var start := position + 1;
      var _ := Consume(OPEN_BRACE);
      SkipWhitespace();
      var empty := Consume(CLOSE_BRACE);
      if empty {
        return true;
      }
      var keys: seq<bytes> := [];
      MembersAfterBlanks(json, start, depth, []);
      BlanksSkippedOnce(json, start);
      while true
        invariant start <= position <= |json| && SkipBlanks(json, position) == position
        invariant SameEnd(FindMembers(json, position, depth, keys), FindMembers(json, start, depth, []))
        decreases |json| - position
      {
        MembersAt(json, position, depth, keys);
        var accepted, key := ParseMember(depth, keys);
        if !accepted {
          return false;
        }
        keys := keys + [key];
        var closed := Consume(CLOSE_BRACE);
        if closed {
          return true;
        }
        var continued := Consume(COMMA);
        if !continued {
          return false;
        }
        MembersAfterBlanks(json, position, depth, keys);
        BlanksSkippedOnce(json, position);
        SkipWhitespace();
      }
    }

    /** The body of the object loop up to what follows the value; a repeated key ends it. */
    method ParseMember(depth: nat, keys: seq<bytes>) returns (ok: bool, key: bytes)
      requires position <= |json| && SkipBlanks(json, position) == position
      modifies this
      ensures old(position) <= position <= |json|
      ensures var m := MemberAt(json, old(position), depth, keys);
              (ok <==> m.Parsed?) && (ok ==> key == m.tree && position == m.end > old(position))
      decreases |json| - position, 0
    {
      hide FindValue, FindString, SkipBlanks, PiecesValue;
      ok := false;
      var named;
      named, key := ParseString();
      if !named {
        return;
      }
      var repeated := Contains(keys, key);
      if repeated {
        return;
      }
      SkipWhitespace();
      var separated := Consume(COLON);
      if !separated {
        return;
      }
      ok := ParseValue(depth);
      if ok {
        SkipWhitespace();
      }
    }

    /** The duplicate search over the keys seen so far. */
    method Contains(keys: seq<bytes>, key: bytes) returns (found: bool)
      ensures found <==> key in keys
    {
      for index := 0 to |keys|
        invariant key !in keys[..index]
      {
        if keys[index] == key {
          return true;
        }
      }
      found := false;
    }

    method ParseArray(depth: nat) returns (ok: bool)
      requires 1 <= depth <= MAX_NESTING + 1 && position < |json| && json[position] == OPEN_BRACKET
      modifies this
      ensures old(position) <= position <= |json|
      ensures var r := FindValue(json, old(position), depth - 1);
              (ok <==> r.Parsed?) && (ok ==> position == r.end)
      decreases |json| - position, 1
    {
      hide FindValue, FindItems, SkipBlanks, IsWhitespace, Blanks;
      ArrayAt(json, position, depth - 1);
      ghost var start := position + 1;
      var _ := Consume(OPEN_BRACKET);
      SkipWhitespace();
      var empty := Consume(CLOSE_BRACKET);
      if empty {
        return true;
      }
      ItemsAfterBlanks(json, start, depth);
      BlanksSkippedOnce(json, start);
      while true
        invariant start <= position <= |json| && SkipBlanks(json, position) == position
        invariant SameEnd(FindItems(json, position, depth), FindItems(json, start, depth))
        decreases |json| - position
      {
        ItemsAt(json, position, depth);
        var valued := ParseValue(depth);
        if !valued {
          return false;
        }
        SkipWhitespace();
        var closed := Consume(CLOSE_BRACKET);
        if closed {
          return true;
        }
        var continued := Consume(COMMA);
        if !continued {
          return false;
        }
        ItemsAfterBlanks(json, position, depth);
        BlanksSkippedOnce(json, position);
        SkipWhitespace();
      }
    }

    method DuplicateFree() returns (ok: bool)
      requires position == 0
      modifies this
      ensures ok <==> Document(json)
    {
      hide FindValue, SkipBlanks, Document;
      AcceptsExactlyDocuments(json);
      if |json| == 0 {
        return false;
      }
      SkipWhitespace();
      BlanksSkippedOnce(json, 0);
      var valued := ParseValue(0);
      if !valued {
        return false;
      }
      SkipWhitespace();
      ok := position == |json|;
    }
  }

  /** `isDuplicateFreeJson`; `None` is the null pointer. */
  method IsDuplicateFreeJson(json: Option<bytes>) returns (ok: bool)
    ensures ok <==> json.Some? && Document(json.value)
  {
    if json.None? {
      return false;
    }
    var scanner := new JsonScanner(json.value);
    ok := scanner.DuplicateFree();
  }

  // ----- One unfolding of each search -----

  /** The decoded key of the member at `i`, unless it repeats one of `keys`, and where its value ends. */
  function MemberAt(s: bytes, i: nat, d: nat, keys: seq<bytes>): (r: Parsed<bytes>)
    requires i <= |s|
    ensures r.Parsed? ==> r.end <= |s|
  {
    var k := FindString(s, SkipBlanks(s, i));
    if k.Fail? || PiecesValue(k.tree) in keys then Fail
    else
      var c := SkipBlanks(s, k.end);
      if c == |s| || s[c] != COLON then Fail
      else
        var v := FindValue(s, SkipBlanks(s, c + 1), d);
        if v.Fail? then Fail else Parsed(PiecesValue(k.tree), SkipBlanks(s, v.end))
  }

  function FractionEnd(s: bytes, i: nat): (end: nat)
    requires i <= |s|
    ensures i <= end <= |s|
  {
    if i < |s| && s[i] == DOT then SkipDigits(s, i + 1) else i
  }

  function ExponentEnd(s: bytes, i: nat): (end: nat)
    requires i <= |s|
    ensures i <= end <= |s|
  {
    if i < |s| && (s[i] == 0x65 || s[i] == 0x45) then
      SkipDigits(s, if i + 1 < |s| && (s[i + 1] == PLUS || s[i + 1] == MINUS) then i + 2 else i + 1)
    else i
  }

  lemma NumeralEnds(s: bytes, i: nat)
    requires i <= |s|
    ensures var a := if i < |s| && s[i] == MINUS then i + 1 else i;
            var e := ExponentEnd(s, FractionEnd(s, SkipDigits(s, a)));
            (FindNumeral(s, i).Parsed? <==> e > i) && (e > i ==> FindNumeral(s, i).end == e)
  {
    hide SkipDigits, FindFraction, FindExponent, Has, FractionEnd, ExponentEnd, GoodNumeral;
    var a := if i < |s| && s[i] == MINUS then i + 1 else i;
    var b := SkipDigits(s, a);
    var (_, c) := FindFraction(s, b);
    assert c == FractionEnd(s, b) by { FractionEnds(s, b); }
    assert FindExponent(s, c).1 == ExponentEnd(s, c) by { ExponentEnds(s, c); }
  }

  lemma FractionEnds(s: bytes, i: nat)
    requires i <= |s|
    ensures FindFraction(s, i).1 == FractionEnd(s, i)
  {
    hide SkipDigits, Has;
  }

  lemma ExponentEnds(s: bytes, i: nat)
    requires i <= |s|
    ensures FindExponent(s, i).1 == ExponentEnd(s, i)
  {
    hide SkipDigits, Has;
  }

  lemma KeyAt(s: bytes, i: nat)
    requires i <= |s|
    ensures var k, r := FindString(s, SkipBlanks(s, i)), FindKey(s, i);
            r.Parsed? == k.Parsed? && (r.Parsed? ==> r.tree.pieces == k.tree && r.end == SkipBlanks(s, k.end))
  {
    hide SkipBlanks, FindString;
  }

  lemma PaddedAt(s: bytes, i: nat, d: nat)
    requires i <= |s|
    ensures var v, r := FindValue(s, SkipBlanks(s, i), d), FindPadded(s, i, d);
            r.Parsed? == v.Parsed? && (r.Parsed? ==> r.end == SkipBlanks(s, v.end))
  {
    hide SkipBlanks, FindValue;
  }

  lemma LiteralAt(s: bytes, p: nat)
    requires p < |s|
    ensures WordAt(s, p) == (if Has(s, p, TRUE_WORD) then Some(TRUE_WORD)
                             else if Has(s, p, FALSE_WORD) then Some(FALSE_WORD)
                             else if Has(s, p, NULL_WORD) then Some(NULL_WORD) else None)
    ensures s[p] != TRUE_WORD[0] ==> !Has(s, p, TRUE_WORD)
    ensures s[p] != FALSE_WORD[0] ==> !Has(s, p, FALSE_WORD)
    ensures s[p] != NULL_WORD[0] ==> !Has(s, p, NULL_WORD)
  {
  }

  lemma ObjectAt(s: bytes, p: nat, d: nat)
    requires p < |s| && s[p] == OPEN_BRACE && d <= MAX_NESTING
    ensures var q := SkipBlanks(s, p + 1);
            var r := FindValue(s, p, d);
            var m := FindMembers(s, p + 1, d + 1, []);
            if q < |s| && s[q] == CLOSE_BRACE then r.Parsed? && r.end == q + 1
            else r.Parsed? == m.Parsed? && (r.Parsed? ==> r.end == m.end)
  {
    hide SkipBlanks, FindMembers;
  }

  lemma ArrayAt(s: bytes, p: nat, d: nat)
    requires p < |s| && s[p] == OPEN_BRACKET && d <= MAX_NESTING
    ensures var q := SkipBlanks(s, p + 1);
            var r := FindValue(s, p, d);
            var m := FindItems(s, p + 1, d + 1);
            if q < |s| && s[q] == CLOSE_BRACKET then r.Parsed? && r.end == q + 1
            else r.Parsed? == m.Parsed? && (r.Parsed? ==> r.end == m.end)
  {
    hide SkipBlanks, FindItems;
  }

  lemma ItemsAt(s: bytes, i: nat, d: nat)
    requires i <= |s|
    ensures var v := FindValue(s, SkipBlanks(s, i), d);
            var r := FindItems(s, i, d);
            if v.Fail? then r.Fail?
            else
              var e := SkipBlanks(s, v.end);
              if e == |s| then r.Fail?
              else if s[e] == CLOSE_BRACKET then r.Parsed? && r.end == e + 1
              else if s[e] != COMMA then r.Fail?
              else SameEnd(r, FindItems(s, e + 1, d))
  {
    hide SkipBlanks, FindValue, FindPadded;
    PaddedAt(s, i, d);
  }

  lemma MembersAt(s: bytes, i: nat, d: nat, keys: seq<bytes>)
    requires i <= |s|
    ensures var m, r := MemberAt(s, i, d, keys), FindMembers(s, i, d, keys);
            if m.Fail? || m.end == |s| then r.Fail?
            else if s[m.end] == CLOSE_BRACE then r.Parsed? && r.end == m.end + 1
            else if s[m.end] != COMMA then r.Fail?
            else SameEnd(r, FindMembers(s, m.end + 1, d, keys + [m.tree]))
  {
    hide SkipBlanks, FindValue, FindString, FindKey, FindPadded, PiecesValue;
    KeyAt(s, i);
    if FindKey(s, i).Parsed? && FindKey(s, i).end < |s| {
      PaddedAt(s, FindKey(s, i).end + 1, d);
    }
  }
}

/**
 * The language the firmware's JSON scanner is meant to accept (RFC 8259 sections 2 to 7), as
 * concrete syntax trees and the bytes they stand for. Nothing here refers to the scanner.
 *
 * The one deliberate difference from the RFC is `Number`: the scanner's numbers are wider.
 */
module JsonGrammar {
  import opened Prelude
  import opened Utf8

  const MAX_NESTING := 32

  const QUOTE: byte := 0x22
  const BACKSLASH: byte := 0x5C
  const COMMA: byte := 0x2C
  const COLON: byte := 0x3A
  const MINUS: byte := 0x2D
  const PLUS: byte := 0x2B
  const DOT: byte := 0x2E
  const OPEN_BRACKET: byte := 0x5B
  const CLOSE_BRACKET: byte := 0x5D
  const OPEN_BRACE: byte := 0x7B
  const CLOSE_BRACE: byte := 0x7D
  const LETTER_U: byte := 0x75

  const TRUE_WORD: bytes := [0x74, 0x72, 0x75, 0x65]
  const FALSE_WORD: bytes := [0x66, 0x61, 0x6C, 0x73, 0x65]
  const NULL_WORD: bytes := [0x6E, 0x75, 0x6C, 0x6C]

  predicate IsWhitespace(b: byte) {
    b == 0x20 || b == 0x09 || b == 0x0A || b == 0x0D
  }

  predicate Blanks(s: bytes) {
    forall b :: b in s ==> IsWhitespace(b)
  }

  predicate IsDigit(b: byte) {
    0x30 <= b <= 0x39
  }

  predicate Digits(s: bytes) {
    forall b :: b in s ==> IsDigit(b)
  }

  function HexValue(b: byte): (r: int)
    ensures -1 <= r < 16
  {
    if 0x30 <= b <= 0x39 then b - 0x30
    else if 0x61 <= b <= 0x66 then b - 0x61 + 10
    else if 0x41 <= b <= 0x46 then b - 0x41 + 10
    else -1
  }

  // ----- Strings -----

  /** Four hexadecimal digits. */
  datatype Quad = Quad(a: byte, b: byte, c: byte, d: byte)

  predicate GoodQuad(q: Quad) {
    HexValue(q.a) >= 0 && HexValue(q.b) >= 0 && HexValue(q.c) >= 0 && HexValue(q.d) >= 0
  }

  function QuadNumber(q: Quad): (n: int)
    requires GoodQuad(q)
    ensures 0 <= n <= 0xFFFF
  {
    HexValue(q.a) * 0x1000 + HexValue(q.b) * 0x100 + HexValue(q.c) * 0x10 + HexValue(q.d)
  }

  function QuadText(q: Quad): bytes {
    [q.a, q.b, q.c, q.d]
  }

  /** One piece of a string literal: a raw byte, a short escape, `\uXXXX`, or a surrogate pair. */
  datatype Piece =
    | Raw(b: byte)
    | Short(letter: byte)
    | Unit(digits: Quad)
    | Pair(high: Quad, low: Quad)

  /** What a short escape stands for. */
  function ShortValue(letter: byte): Option<byte> {
    if letter == QUOTE || letter == BACKSLASH || letter == 0x2F then Some(letter)
    else if letter == 0x62 then Some(0x08)
    else if letter == 0x66 then Some(0x0C)
    else if letter == 0x6E then Some(0x0A)
    else if letter == 0x72 then Some(0x0D)
    else if letter == 0x74 then Some(0x09)
    else None
  }

  predicate GoodPiece(piece: Piece) {
    match piece
    case Raw(b) => b >= 0x20 && b != QUOTE && b != BACKSLASH
    case Short(letter) => ShortValue(letter).Some?
    case Unit(digits) => GoodQuad(digits) && !(0xD800 <= QuadNumber(digits) <= 0xDFFF)
    case Pair(high, low) =>
      GoodQuad(high) && GoodQuad(low) && 0xD800 <= QuadNumber(high) <= 0xDBFF && 0xDC00 <= QuadNumber(low) <= 0xDFFF
  }

  function PieceText(piece: Piece): bytes {
    match piece
    case Raw(b) => [b]
    case Short(letter) => [BACKSLASH, letter]
    case Unit(digits) => [BACKSLASH, LETTER_U] + QuadText(digits)
    case Pair(high, low) => [BACKSLASH, LETTER_U] + (QuadText(high) + ([BACKSLASH, LETTER_U] + QuadText(low)))
  }

  /** The scalar a surrogate pair stands for. */
  function Combine(high: int, low: int): char
    requires 0xD800 <= high <= 0xDBFF && 0xDC00 <= low <= 0xDFFF
  {
    (0x10000 + (high - 0xD800) * 0x400 + (low - 0xDC00)) as char
  }

  /** The bytes a piece contributes to the decoded string; escapes decode to UTF-8. */
  function PieceValue(piece: Piece): bytes
    requires GoodPiece(piece)
  {
    match piece
    case Raw(b) => [b]
    case Short(letter) => [ShortValue(letter).value]
    case Unit(digits) => EncodeChar(QuadNumber(digits) as char)
    case Pair(high, low) => EncodeChar(Combine(QuadNumber(high), QuadNumber(low)))
  }

  predicate GoodPieces(pieces: seq<Piece>) {
    forall piece :: piece in pieces ==> GoodPiece(piece)
  }

  function PiecesText(pieces: seq<Piece>): bytes {
    if pieces == [] then [] else PieceText(pieces[0]) + PiecesText(pieces[1..])
  }

  function PiecesValue(pieces: seq<Piece>): bytes
    requires GoodPieces(pieces)
  {
    if pieces == [] then [] else PieceValue(pieces[0]) + PiecesValue(pieces[1..])
  }

  // ----- Values -----

  datatype Exponent = Exponent(letter: byte, sign: Option<byte>, digits: bytes)

  datatype Numeral = Numeral(minus: bool, whole: bytes, fraction: Option<bytes>, exponent: Option<Exponent>)

  datatype Value =
    | Word(word: bytes)
    | Number(numeral: Numeral)
    | Text(pieces: seq<Piece>)
    | EmptyArray(blanks: bytes)
    | Array(items: Items)
    | EmptyObject(blanks: bytes)
    | Object(members: Members)

  /** A value with the blanks around it. */
  datatype Padded = Padded(before: bytes, value: Value, after: bytes)

  /** A key with the blanks around it. */
  datatype Key = Key(before: bytes, pieces: seq<Piece>, after: bytes)

  datatype Items = Items(head: Padded, rest: Option<Items>)

  datatype Members = Members(key: Key, head: Padded, rest: Option<Members>)

  predicate GoodExponent(e: Exponent) {
    && (e.letter == 0x65 || e.letter == 0x45)
    && (e.sign.None? || e.sign.value == PLUS || e.sign.value == MINUS)
    && Digits(e.digits)
  }

  /** The scanner's numbers: any part may be empty, as long as something is there. */
  predicate GoodNumeral(n: Numeral) {
    && Digits(n.whole)
    && (n.fraction.Some? ==> Digits(n.fraction.value))
    && (n.exponent.Some? ==> GoodExponent(n.exponent.value))
    && (n.minus || n.whole != [] || n.fraction.Some? || n.exponent.Some?)
  }

  /** RFC 8259 section 6: no empty part and no leading zero. */
  predicate RfcNumeral(n: Numeral) {
    && Digits(n.whole) && n.whole != [] && (n.whole[0] == 0x30 ==> |n.whole| == 1)
    && (n.fraction.Some? ==> Digits(n.fraction.value) && n.fraction.value != [])
    && (n.exponent.Some? ==> GoodExponent(n.exponent.value) && n.exponent.value.digits != [])
  }

  function ExponentText(e: Option<Exponent>): bytes {
    if e.None? then [] else [e.value.letter] + (OptionalText(e.value.sign) + e.value.digits)
  }

  function OptionalText(b: Option<byte>): bytes {
    if b.None? then [] else [b.value]
  }

  function FractionText(f: Option<bytes>): bytes {
    if f.None? then [] else [DOT] + f.value
  }

  function SignText(minus: bool): bytes {
    if minus then [MINUS] else []
  }

  function NumeralText(n: Numeral): bytes {
    SignText(n.minus) + (n.whole + (FractionText(n.fraction) + ExponentText(n.exponent)))
  }

  function StringText(pieces: seq<Piece>): bytes {
    [QUOTE] + (PiecesText(pieces) + [QUOTE])
  }

  function ValueText(v: Value): bytes {
    match v
    case Word(word) => word
    case Number(numeral) => NumeralText(numeral)
    case Text(pieces) => StringText(pieces)
    case EmptyArray(blanks) => [OPEN_BRACKET] + (blanks + [CLOSE_BRACKET])
    case Array(items) => [OPEN_BRACKET] + ItemsText(items)
    case EmptyObject(blanks) => [OPEN_BRACE] + (blanks + [CLOSE_BRACE])
    case Object(members) => [OPEN_BRACE] + MembersText(members)
  }

  function PaddedText(p: Padded): bytes {
    p.before + (ValueText(p.value) + p.after)
  }

  function KeyText(k: Key): bytes {
    k.before + (StringText(k.pieces) + k.after)
  }

  /** The items up to and including the closing bracket. */
  function ItemsText(items: Items): bytes {
    PaddedText(items.head) +
      (if items.rest.None? then [CLOSE_BRACKET] else [COMMA] + ItemsText(items.rest.value))
  }

  /** The members up to and including the closing brace. */
  function MembersText(m: Members): bytes {
    KeyText(m.key) + ([COLON] + (PaddedText(m.head) +
      (if m.rest.None? then [CLOSE_BRACE] else [COMMA] + MembersText(m.rest.value))))
  }

  predicate Good(v: Value) {
    match v
    case Word(word) => word == TRUE_WORD || word == FALSE_WORD || word == NULL_WORD
    case Number(numeral) => GoodNumeral(numeral)
    case Text(pieces) => GoodPieces(pieces)
    case EmptyArray(blanks) => Blanks(blanks)
    case Array(items) => GoodItems(items)
    case EmptyObject(blanks) => Blanks(blanks)
    case Object(members) => GoodMembers(members) && GoodKeys(members) && NoDuplicates(Keys(members))
  }

  predicate GoodPadded(p: Padded) {
    Blanks(p.before) && Good(p.value) && Blanks(p.after)
  }

  predicate GoodKey(k: Key) {
    Blanks(k.before) && GoodPieces(k.pieces) && Blanks(k.after)
  }

  predicate GoodItems(items: Items) {
    GoodPadded(items.head) && (items.rest.Some? ==> GoodItems(items.rest.value))
  }

  predicate GoodMembers(m: Members) {
    GoodPadded(m.head) && (m.rest.Some? ==> GoodMembers(m.rest.value))
  }

  predicate GoodKeys(m: Members) {
    GoodKey(m.key) && (m.rest.Some? ==> GoodKeys(m.rest.value))
  }

  /** The decoded keys of one object, in order. */
  function Keys(m: Members): seq<bytes>
    requires GoodKeys(m)
  {
    [PiecesValue(m.key.pieces)] + (if m.rest.None? then [] else Keys(m.rest.value))
  }

  predicate NoDuplicates<T(==)>(s: seq<T>) {
    forall i, j :: 0 <= i < j < |s| ==> s[i] != s[j]
  }

  /** How many containers enclose the most deeply nested value; an empty container encloses none. */
  function Depth(v: Value): nat {
    match v
    case Array(items) => 1 + ItemsDepth(items)
    case Object(members) => 1 + MembersDepth(members)
    case _ => 0
  }

  function Max(a: nat, b: nat): nat {
    if a < b then b else a
  }

  function ItemsDepth(items: Items): nat {
    Max(Depth(items.head.value), if items.rest.None? then 0 else ItemsDepth(items.rest.value))
  }

  function MembersDepth(m: Members): nat {
    Max(Depth(m.head.value), if m.rest.None? then 0 else MembersDepth(m.rest.value))
  }

  /** One value within the nesting limit, with no repeated key in any object, and blanks around it. */
  ghost predicate Document(s: bytes) {
    exists before, v, after :: IsDocument(s, before, v, after)
  }

  ghost predicate IsDocument(s: bytes, before: bytes, v: Value, after: bytes) {
    && Blanks(before) && Blanks(after) && Good(v) && Depth(v) <= MAX_NESTING
    && s == before + (ValueText(v) + after)
  }

  /** The texts of the scanner's numbers. */
  ghost predicate IsNumber(s: bytes) {
    exists n :: GoodNumeral(n) && NumeralText(n) == s
  }

  /** The texts of the RFC's numbers. */
  ghost predicate IsRfcNumber(s: bytes) {
    exists n :: RfcNumeral(n) && NumeralText(n) == s
  }

  /** The text of every RFC number is that of a scanner number; a lone minus sign is the latter only. */
  lemma NumbersAreWider(s: bytes)
    ensures IsRfcNumber(s) ==> IsNumber(s)
    ensures IsNumber([MINUS]) && !IsRfcNumber([MINUS])
  {
    if IsRfcNumber(s) {
      var n :| RfcNumeral(n) && NumeralText(n) == s;
      assert GoodNumeral(n);
    }
    var lone := Numeral(true, [], None, None);
    assert GoodNumeral(lone) && NumeralText(lone) == [MINUS];
    forall n | RfcNumeral(n)
      ensures NumeralText(n) != [MINUS]
    {
      assert n.whole[0] in n.whole;
      assert n.minus ==> NumeralText(n)[1] == n.whole[0];
      assert !n.minus ==> NumeralText(n)[0] == n.whole[0];
    }
  }
}

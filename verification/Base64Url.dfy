/**
 * Unpadded base64url (RFC 4648 sections 5 and 3.5): the firmware's encoder and its two decoders
 * (firmware/src/pipa_secure_handshake.cpp, firmware/src/pipa_secure_protocol.cpp).
 *
 * A text of n characters is read as an n-digit number in base 64, and bytes as a number in base 256.
 */
module Base64Url {
  import opened Prelude

  const UINT32 := 0x1_0000_0000

  type digit = d: nat | d < 64

  function CharOf(d: digit): char {
    if d < 26 then 'A' + d as char
    else if d < 52 then 'a' + (d - 26) as char
    else if d < 62 then '0' + (d - 52) as char
    else if d == 62 then '-'
    else '_'
  }

  /** `base64Value`. */
  function DigitOf(c: char): (d: int)
    ensures -1 <= d < 64 && (d >= 0 ==> CharOf(d) == c)
  {
    if 'A' <= c <= 'Z' then c as int - 'A' as int
    else if 'a' <= c <= 'z' then c as int - 'a' as int + 26
    else if '0' <= c <= '9' then c as int - '0' as int + 52
    else if c == '-' then 62
    else if c == '_' then 63
    else -1
  }

  lemma DigitOfCharOf(d: digit)
    ensures DigitOf(CharOf(d)) == d
  {
  }

  const ALPHABET := "ABCDEFGHIJKLM" + "NOPQRSTUVWXYZ" + "abcdefghijklm" + "nopqrstuvwxyz" + "0123456789-_"

  /** The digits are those of RFC 4648, table 2. */
  lemma AlphabetIsRfc4648(d: digit)
    ensures |ALPHABET| == 64 && CharOf(d) == ALPHABET[d]
    ensures forall c :: DigitOf(c) == d <==> c == ALPHABET[d]
    ensures forall c :: DigitOf(c) < 0 <==> c !in ALPHABET
  {
    forall e: digit
      ensures CharOf(e) == ALPHABET[e]
    {
      AlphabetChar(e);
    }
    DigitOfCharOf(d);
    forall c
      ensures DigitOf(c) < 0 <==> c !in ALPHABET
    {
      if c in ALPHABET {
        var e :| 0 <= e < 64 && ALPHABET[e] == c;
        DigitOfCharOf(e);
      }
      if DigitOf(c) >= 0 {
        AlphabetChar(DigitOf(c));
      }
    }
  }

  lemma AlphabetChar(d: digit)
    ensures CharOf(d) == ALPHABET[d]
  {
    if d < 13 {
      assert ALPHABET[d] == "ABCDEFGHIJKLM"[d];
    } else if d < 26 {
      assert ALPHABET[d] == "NOPQRSTUVWXYZ"[d - 13];
    } else if d < 39 {
      assert ALPHABET[d] == "abcdefghijklm"[d - 26];
    } else if d < 52 {
      assert ALPHABET[d] == "nopqrstuvwxyz"[d - 39];
    } else {
      assert ALPHABET[d] == "0123456789-_"[d - 52];
    }
  }

  predicate Valid(s: string) {
    forall c :: c in s ==> DigitOf(c) >= 0
  }

  // ----- Numbers -----

  function Value64(s: string): nat
    requires Valid(s)
  {
    if s == "" then 0 else Value64(s[..|s| - 1]) * 64 + DigitOf(s[|s| - 1])
  }

  function Value256(b: bytes): nat {
    if b == [] then 0 else Value256(b[..|b| - 1]) * 256 + b[|b| - 1]
  }

  lemma Append64(s: string, c: char)
    requires Valid(s) && DigitOf(c) >= 0
    ensures Valid(s + [c]) && Value64(s + [c]) == Value64(s) * 64 + DigitOf(c)
  {
    assert (s + [c])[..|s|] == s;
  }

  lemma Append256(b: bytes, x: byte)
    ensures Value256(b + [x]) == Value256(b) * 256 + x
  {
    assert (b + [x])[..|b|] == b;
  }

  lemma {:induction false} Unique64(s: string, t: string)
    requires Valid(s) && Valid(t) && |s| == |t| && Value64(s) == Value64(t)
    ensures s == t
  {
    if s != "" {
      var n := |s| - 1;
      assert s[n] in s && t[n] in t;
      assert DigitOf(s[n]) == DigitOf(t[n]);
      assert s[n] == t[n];
      Unique64(s[..n], t[..n]);
      assert s == s[..n] + [s[n]] && t == t[..n] + [t[n]];
    }
  }

  lemma {:induction false} Unique256(a: bytes, b: bytes)
    requires |a| == |b| && Value256(a) == Value256(b)
    ensures a == b
  {
    if a != [] {
      var n := |a| - 1;
      Unique256(a[..n], b[..n]);
      assert a == a[..n] + [a[n]] && b == b[..n] + [b[n]];
    }
  }

  // ----- The encoding -----

  function EncodedLength(n: nat): nat {
    (n * 8 + 5) / 6
  }

  /** Two to four characters. */
  function Chars(digits: seq<digit>): (s: string)
    ensures |s| == |digits| && forall i :: 0 <= i < |s| ==> s[i] == CharOf(digits[i])
  {
    seq(|digits|, i requires 0 <= i < |digits| => CharOf(digits[i]))
  }

  /** One, two or three bytes as a number of 24 bits. */
  function Block(b: bytes): (n: nat)
    requires 1 <= |b| <= 3
    ensures n < 0x1000000
  {
    (b[0] as int) * 0x10000 + (if |b| > 1 then (b[1] as int) * 0x100 else 0) + (if |b| > 2 then b[2] as int else 0)
  }

  function GroupDigits(block: nat, count: nat): seq<digit>
    requires block < 0x1000000 && 2 <= count <= 4
  {
    [block / 0x40000, block / 0x1000 % 64, block / 0x40 % 64, block % 64][..count]
  }

  function Group(b: bytes): string
    requires 1 <= |b| <= 3
  {
    Chars(GroupDigits(Block(b), |b| + 1))
  }

  /** Where the last group starts. */
  function LastGroup(n: nat): nat
    requires n > 0
  {
    (n - 1) / 3 * 3
  }

  /** Full groups of three bytes, then what is left. */
  function Encode(b: bytes): (s: string)
    ensures |s| == EncodedLength(|b|)
    decreases |b|
  {
    if b == [] then ""
    else
      var tail := LastGroup(|b|);
      LengthOfGroups(|b|);
      Encode(b[..tail]) + Group(b[tail..])
  }

  lemma LengthOfGroups(n: nat)
    requires n > 0
    ensures LastGroup(n) < n <= LastGroup(n) + 3 && LastGroup(n) % 3 == 0
    ensures EncodedLength(n) == EncodedLength(LastGroup(n)) + (n - LastGroup(n)) + 1
  {
    var k := (n - 1) / 3;
    assert EncodedLength(3 * k) == 4 * k;
  }

  lemma AppendTwo(s: string, a: digit, b: digit)
    requires Valid(s)
    ensures Valid(s + Chars([a, b])) && Value64(s + Chars([a, b])) == Value64(s) * 0x1000 + a * 0x40 + b
  {
    hide CharOf, Value64;
    assert s + Chars([]) == s;
    AppendDigit(s, [], a);
    assert [] + [a] == [a];
    AppendDigit(s, [a], b);
    assert [a] + [b] == [a, b];
  }

  lemma AppendThree(s: string, a: digit, b: digit, c: digit)
    requires Valid(s)
    ensures Valid(s + Chars([a, b, c])) && Value64(s + Chars([a, b, c])) == Value64(s) * 0x40000 + a * 0x1000 + b * 0x40 + c
  {
    hide CharOf, Value64;
    AppendTwo(s, a, b);
    AppendDigit(s, [a, b], c);
    assert [a, b] + [c] == [a, b, c];
  }

  lemma AppendFour(s: string, a: digit, b: digit, c: digit, d: digit)
    requires Valid(s)
    ensures Valid(s + Chars([a, b, c, d]))
    ensures Value64(s + Chars([a, b, c, d])) == Value64(s) * 0x1000000 + a * 0x40000 + b * 0x1000 + c * 0x40 + d
  {
    hide CharOf, Value64;
    AppendThree(s, a, b, c);
    AppendDigit(s, [a, b, c], d);
    assert [a, b, c] + [d] == [a, b, c, d];
  }

  lemma AppendBytes(a: bytes, b: bytes)
    requires 1 <= |b| <= 3
    ensures |b| == 1 ==> Value256(a + b) * 0x10000 == Value256(a) * 0x1000000 + Block(b)
    ensures |b| == 2 ==> Value256(a + b) * 0x100 == Value256(a) * 0x1000000 + Block(b)
    ensures |b| == 3 ==> Value256(a + b) == Value256(a) * 0x1000000 + Block(b)
  {
    hide Value256;
    Append256(a, b[0]);
    if |b| == 1 {
      assert a + b == a + [b[0]];
    } else {
      Append256(a + [b[0]], b[1]);
      if |b| == 2 {
        assert a + b == a + [b[0]] + [b[1]];
      } else {
        Append256(a + [b[0]] + [b[1]], b[2]);
        assert a + b == a + [b[0]] + [b[1]] + [b[2]];
      }
    }
  }

  /** The digits of a block, most significant first, put it together again. */
  lemma BlockDigits(n: nat)
    requires n < 0x1000000
    ensures n == n / 0x40000 * 0x40000 + n / 0x1000 % 64 * 0x1000 + n / 0x40 % 64 * 0x40 + n % 64
  {
    assert n / 0x1000 == n / 0x40 / 0x40 && n / 0x40000 == n / 0x1000 / 0x40;
  }

  lemma AppendDigit(s: string, d: seq<digit>, x: digit)
    requires Valid(s + Chars(d))
    ensures Valid(s + Chars(d + [x])) && Value64(s + Chars(d + [x])) == Value64(s + Chars(d)) * 64 + x
  {
    hide CharOf, DigitOf, Value64;
    DigitOfCharOf(x);
    Append64(s + Chars(d), CharOf(x));
    assert s + Chars(d + [x]) == s + Chars(d) + [CharOf(x)];
  }

  /** The weight of the zero bits that fill the last character. */
  function Padding(n: nat): nat {
    if n % 3 == 0 then 1 else if n % 3 == 1 then 16 else 4
  }

  /** The encoding, read as a number, is the bytes as a number, followed by zero bits. */
  lemma {:induction false} EncodeKeepsValue(b: bytes)
    ensures Valid(Encode(b)) && Value64(Encode(b)) == Value256(b) * Padding(|b|)
    decreases |b|
  {
    hide Group, LastGroup, EncodedLength, Padding;
    if b == [] {
      assert Padding(0) == 1 by { NoPadding(); }
      assert Valid("");
    } else {
      var tail := LastGroup(|b|);
      LengthOfGroups(|b|);
      EncodeKeepsValue(b[..tail]);
      NoPadding();
      GroupValue(Encode(b[..tail]), b[..tail], b[tail..]);
      assert b[..tail] + b[tail..] == b;
    }
  }

  lemma NoPadding()
    ensures forall n: nat :: n % 3 == 0 ==> Padding(n) == 1
  {
  }

  lemma GroupValue(s: string, a: bytes, b: bytes)
    requires Valid(s) && |a| % 3 == 0 && 1 <= |b| <= 3 && Value64(s) == Value256(a)
    ensures Valid(s + Group(b)) && Value64(s + Group(b)) == Value256(a + b) * Padding(|a + b|)
  {
    hide Value64, Value256, Valid, Chars, Block;
    var n := Block(b);
    var d := GroupDigits(n, 4);
    AppendBytes(a, b);
    BlockDigits(n);
    LowBits(b);
    match |b| {
      case 1 =>
        assert GroupDigits(n, 2) == [d[0], d[1]];
        AppendTwo(s, d[0], d[1]);
      case 2 =>
        assert GroupDigits(n, 3) == [d[0], d[1], d[2]];
        AppendThree(s, d[0], d[1], d[2]);
      case _ =>
        assert GroupDigits(n, 4) == [d[0], d[1], d[2], d[3]];
        AppendFour(s, d[0], d[1], d[2], d[3]);
    }
  }

  /** The digits a short group leaves out are zero. */
  lemma LowBits(b: bytes)
    requires 1 <= |b| <= 3
    ensures |b| == 1 ==> Block(b) / 0x40 % 64 == 0 && Block(b) % 64 == 0
    ensures |b| == 2 ==> Block(b) % 64 == 0
  {
  }

  // ----- Decoding -----

  function Weight(bits: nat): (w: nat)
    ensures w > 0
  {
    if bits == 0 then 1 else if bits == 2 then 4 else if bits == 4 then 16 else 64
  }

  /** The decoder's state after the characters `s`: `bits` bits in `accumulator` wait for more. */
  predicate Decoding(s: string, out: bytes, accumulator: nat, bits: nat) {
    && Valid(s) && (bits == 0 || bits == 2 || bits == 4 || bits == 6)
    && 8 * |out| + bits == 6 * |s| && accumulator < Weight(bits)
    && Value64(s) == Value256(out) * Weight(bits) + accumulator
  }

  lemma NothingDecoded()
    ensures Decoding("", [], 0, 0)
  {
  }

  /** `accumulator << 6 | d`, on 32 bits. */
  function ShiftedIn(accumulator: nat, d: digit): nat {
    (accumulator * 64 + d) % UINT32
  }

  /** `accumulator >> bits`, as a byte. */
  function TopByte(accumulator: nat, bits: nat): byte {
    accumulator / Weight(bits) % 256
  }

  function LeftOver(accumulator: nat, bits: nat): nat {
    if bits == 0 then 0 else accumulator % Weight(bits)
  }

  /** One more character; the shifted accumulator never needs more than 12 of its 32 bits. */
  lemma DecodeStep(s: string, out: bytes, accumulator: nat, bits: nat, c: char)
    requires Decoding(s, out, accumulator, bits) && DigitOf(c) >= 0
    ensures accumulator * 64 + DigitOf(c) < 0x1000 && (bits == 0 || bits == 2 || bits == 4 || bits == 6)
    ensures var shifted := ShiftedIn(accumulator, DigitOf(c));
            && (bits == 0 ==> Decoding(s + [c], out, shifted, 6))
            && (bits != 0 ==>
                  && shifted / Weight(bits - 2) < 256
                  && Decoding(s + [c], out + [TopByte(shifted, bits - 2)], LeftOver(shifted, bits - 2), bits - 2))
  {
    hide DigitOf, Value64, Value256, Weight, ShiftedIn, TopByte, LeftOver;
    var d: digit := DigitOf(c);
    var shifted := ShiftedIn(accumulator, d);
    Append64(s, c);
    ShiftStaysSmall(accumulator, bits, d);
    if bits == 0 {
      assert Weight(0) == 1 && Weight(6) == 64 by { Weights(); }
    } else {
      Append256(out, TopByte(shifted, bits - 2));
      Regroup(Value256(out), accumulator, bits, d);
    }
  }

  lemma Weights()
    ensures Weight(0) == 1 && Weight(2) == 4 && Weight(4) == 16 && Weight(6) == 64
  {
  }

  lemma ShiftStaysSmall(accumulator: nat, bits: nat, d: digit)
    requires (bits == 0 || bits == 2 || bits == 4 || bits == 6) && accumulator < Weight(bits)
    ensures ShiftedIn(accumulator, d) == accumulator * 64 + d < 0x1000
    ensures bits == 0 ==> ShiftedIn(accumulator, d) == d
  {
  }

  lemma Regroup(value: nat, accumulator: nat, bits: nat, d: digit)
    requires (bits == 2 || bits == 4 || bits == 6) && accumulator < Weight(bits)
    ensures var shifted, w := ShiftedIn(accumulator, d), Weight(bits - 2);
            && shifted / w < 256 && LeftOver(shifted, bits - 2) < w
            && (value * Weight(bits) + accumulator) * 64 + d == (value * 256 + TopByte(shifted, bits - 2)) * w + LeftOver(shifted, bits - 2)
  {
    hide Weight, ShiftedIn;
    var shifted := accumulator * 64 + d;
    ShiftStaysSmall(accumulator, bits, d);
    Weights();
    if bits == 2 {
      assert Weight(bits) == 4 && shifted < 256;
    } else if bits == 4 {
      assert Weight(bits) == 16;
      SplitBy4(value, shifted);
    } else {
      assert Weight(bits) == 64;
      SplitBy16(value, shifted);
    }
  }

  lemma SplitBy4(value: nat, x: nat)
    requires x < 1024
    ensures x / 4 < 256 && (value * 256 + x / 4 % 256) * 4 + x % 4 == value * 1024 + x
  {
  }

  lemma SplitBy16(value: nat, x: nat)
    requires x < 4096
    ensures x / 16 < 256 && (value * 256 + x / 16 % 256) * 16 + x % 16 == value * 4096 + x
  {
  }

  lemma LengthIsInjective(n: nat, m: nat)
    requires EncodedLength(n) == EncodedLength(m)
    ensures n == m
  {
  }

  /** Decoded to the end, the text is the encoding of exactly one byte string, or of none. */
  lemma DecodedText(s: string, out: bytes, accumulator: nat, bits: nat)
    requires Decoding(s, out, accumulator, bits) && bits < 6
    ensures accumulator == 0 <==> s == Encode(out)
    ensures forall b :: s == Encode(b) ==> b == out
  {
    hide Encode, Value64, Value256, Valid;
    assert Padding(|out|) == Weight(bits) && EncodedLength(|out|) == |s|;
    EncodeKeepsValue(out);
    if accumulator == 0 {
      Unique64(s, Encode(out));
    }
    forall b | s == Encode(b)
      ensures b == out
    {
      LengthIsInjective(|b|, |out|);
      EncodeKeepsValue(b);
      SameQuotient(Value256(b), Value256(out), Weight(bits), accumulator);
      Unique256(b, out);
    }
  }

  lemma SameQuotient(x: nat, y: nat, w: nat, rest: nat)
    requires x * w == y * w + rest && rest < w && (w == 1 || w == 4 || w == 16)
    ensures x == y && rest == 0
  {
  }

  /** An encoding never fills more bytes than were encoded, so far as it has been decoded. */
  lemma NeverTooLong(s: string, out: bytes, accumulator: nat, bits: nat, b: bytes, length: nat)
    requires Decoding(s, out, accumulator, bits) && |s| <= length == |Encode(b)|
    ensures |out| <= |b|
  {
    hide Encode;
  }

  lemma NoEncodingHasLength(b: bytes)
    ensures |Encode(b)| % 4 != 1 && (b != [] <==> Encode(b) != "") && Valid(Encode(b))
  {
    hide Encode, Valid;
    EncodeKeepsValue(b);
    LengthsOfGroups(|b|);
  }

  lemma LengthsOfGroups(n: nat)
    ensures EncodedLength(n) % 4 != 1 && (n > 0 <==> EncodedLength(n) > 0)
  {
    var k, r := n / 3, n % 3;
    assert n == 3 * k + r && n * 8 + 5 == 24 * k + (8 * r + 5);
    assert EncodedLength(n) == 4 * k + (8 * r + 5) / 6;
  }

  /** The text encodes some byte string of this length. */
  ghost predicate IsEncoding(s: string, length: nat) {
    exists b: bytes :: |b| == length && s == Encode(b)
  }

  /** Decoding inverts encoding: no text encodes two byte strings. */
  lemma EncodeIsInjective(a: bytes, b: bytes)
    requires Encode(a) == Encode(b)
    ensures a == b
  {
    hide Encode, Valid;
    LengthIsInjective(|a|, |b|);
    EncodeKeepsValue(a);
    EncodeKeepsValue(b);
    SameQuotient(Value256(a), Value256(b), Padding(|a|), 0);
    Unique256(a, b);
  }

  // ----- The firmware's loops -----

  lemma GroupInSteps(b: bytes)
    requires 1 <= |b| <= 3
    ensures var n := Block(b);
            Group(b) == Chars([n / 0x40000, n / 0x1000 % 64]) +
                          ((if |b| > 1 then Chars([n / 0x40 % 64]) else "") + (if |b| > 2 then Chars([n % 64]) else ""))
  {
    hide CharOf, Block;
  }

  lemma EncodeOneMore(data: bytes, index: nat, last: nat)
    requires index % 3 == 0 && index < last <= |data| && (last == index + 3 || (last == |data| && last < index + 3))
    ensures Encode(data[..last]) == Encode(data[..index]) + Group(data[index..last])
  {
    assert LastGroup(last) == index;
    assert data[..last][..index] == data[..index] && data[..last][index..] == data[index..last];
  }

  /** `encodeBase64Url`, which is the same in both files. */
  method EncodeBase64Url(data: bytes) returns (value: string)
    ensures value == Encode(data)
  {
    hide Chars, Encode, Group, Block, EncodedLength;
    value := "";
    var index := 0;
    assert data[..0] == [] && Encode([]) == "" by {
      EncodeNothing();
    }
    while index < |data|
      invariant index % 3 == 0
      invariant value == Encode(data[..if index < |data| then index else |data|])
    {
      var group := EncodeGroup(data, index);
      ghost var last := if index + 3 <= |data| then index + 3 else |data|;
      EncodeOneMore(data, index, last);
      value := value + group;
      index := index + 3;
    }
    assert data[..|data|] == data;
  }

  lemma EncodeNothing()
    ensures Encode([]) == ""
  {
  }

  /** The body of the loop. */
  method EncodeGroup(data: bytes, index: nat) returns (value: string)
    requires index < |data|
    ensures value == Group(data[index..if index + 3 <= |data| then index + 3 else |data|])
  {
    hide Chars;
    ghost var group := data[index..if index + 3 <= |data| then index + 3 else |data|];
    var block := (data[index] as int) * 0x10000 + (if index + 1 < |data| then data[index + 1] as int else 0) * 0x100 +
                 (if index + 2 < |data| then data[index + 2] as int else 0);
    assert block == Block(group);
    GroupInSteps(group);
    value := Chars([block / 0x40000 % 64, block / 0x1000 % 64]);
    if index + 1 < |data| {
      value := value + Chars([block / 0x40 % 64]);
    }
    if index + 2 < |data| {
      value := value + Chars([block % 64]);
    }
  }

  lemma BadCharacter(value: string, index: nat)
    requires index < |value| && DigitOf(value[index]) < 0
    ensures forall n: nat :: !IsEncoding(value, n)
  {
    hide Encode;
    assert !Valid(value);
    forall b: bytes
      ensures Valid(Encode(b))
    {
      NoEncodingHasLength(b);
    }
  }

  lemma NoRoom(value: string, index: nat, out: bytes, accumulator: nat, bits: nat)
    requires index <= |value| && Decoding(value[..index], out, accumulator, bits)
    ensures forall n: nat :: n < |out| ==> !IsEncoding(value, n)
  {
    hide Encode, Value64, Value256;
    forall b: bytes | value == Encode(b)
      ensures |out| <= |b|
    {
      NeverTooLong(value[..index], out, accumulator, bits, b, |value|);
    }
  }

  lemma BadLength(value: string)
    requires value == "" || |value| % 4 == 1
    ensures forall n: nat :: n > 0 ==> !IsEncoding(value, n)
  {
    hide Encode;
    forall b: bytes | b != []
      ensures |Encode(b)| % 4 != 1 && Encode(b) != ""
    {
      NoEncodingHasLength(b);
    }
  }

  lemma DecodedOnly(value: string, out: bytes, accumulator: nat, bits: nat)
    requires Decoding(value, out, accumulator, bits) && bits < 6
    ensures forall n: nat :: IsEncoding(value, n) <==> n == |out| && accumulator == 0
    ensures accumulator == 0 <==> value == Encode(out)
  {
    hide Encode, Decoding;
    DecodedText(value, out, accumulator, bits);
  }

  /** The handshake's decoder, for an output of known length. */
  method DecodeFixed(value: string, output: array<byte>) returns (ok: bool)
    modifies output
    ensures ok <==> output.Length > 0 && IsEncoding(value, output.Length)
    ensures ok ==> value == Encode(output[..])
  {
    hide Encode, Decoding, DigitOf, Weight, ShiftedIn, TopByte, LeftOver;
    var inputLength := |value|;
    var expected := (output.Length * 8 + 5) / 6;
    if inputLength == 0 || inputLength != expected || inputLength % 4 == 1 {
      if inputLength == 0 {
        BadLength(value);
      }
      return false;
    }
    var outputIndex: nat, accumulator: nat, bits: nat := 0, 0, 0;
    NothingDecoded();
    Weights();
    assert value[..0] == "" && output[..0] == [];
    for index := 0 to inputLength
      invariant outputIndex <= output.Length
      invariant Decoding(value[..index], output[..outputIndex], accumulator, bits)
    {
      var d := DigitOf(value[index]);
      if d < 0 {
        BadCharacter(value, index);
        return false;
      }
      DecodeStep(value[..index], output[..outputIndex], accumulator, bits, value[index]);
      assert value[..index] + [value[index]] == value[..index + 1];
      accumulator := ShiftedIn(accumulator, d);
      bits := (bits + 6) % 256;
      if bits >= 8 {
        bits := bits - 8;
        if outputIndex >= output.Length {
          NoRoom(value, index + 1, output[..outputIndex] + [TopByte(accumulator, bits)], LeftOver(accumulator, bits), bits);
          return false;
        }
        ghost var before := output[..outputIndex];
        output[outputIndex] := TopByte(accumulator, bits);
        outputIndex := outputIndex + 1;
        assert output[..outputIndex] == before + [TopByte(accumulator, bits)];
        accumulator := LeftOver(accumulator, bits);
      }
    }
    assert value[..inputLength] == value;
    WrongEnd(value, output[..outputIndex], accumulator, bits);
    DecodedOnly(value, output[..outputIndex], accumulator, bits);
    assert outputIndex == output.Length ==> output[..outputIndex] == output[..];
    var again := EncodeBase64Url(output[..]);
    ok := outputIndex == output.Length && bits < 6 && again == value;
  }

  lemma WrongEnd(value: string, out: bytes, accumulator: nat, bits: nat)
    requires Decoding(value, out, accumulator, bits) && |value| % 4 != 1
    ensures bits < 6
    ensures forall n: nat :: n != |out| ==> !IsEncoding(value, n)
  {
    hide Encode, Value64, Value256;
    assert bits != 6 by {
      assert bits == 6 ==> 4 * |out| + 3 == 3 * |value|;
    }
    DecodedOnly(value, out, accumulator, bits);
  }

  /** The record decoder, for an output of at most a known length, or of exactly that when no length is asked for. */
  method Decode(value: string, output: array<byte>, wantsLength: bool) returns (ok: bool, decodedLength: nat)
    modifies output
    ensures ok <==> exists n :: 0 < n <= output.Length && (!wantsLength ==> n == output.Length) && IsEncoding(value, n)
    ensures ok && wantsLength ==> decodedLength <= output.Length && value == Encode(output[..decodedLength])
    ensures ok && !wantsLength ==> value == Encode(output[..])
  {
    hide Encode, Decoding, DigitOf, Weight, ShiftedIn, TopByte, LeftOver;
    decodedLength := 0;
    if value == "" || |value| % 4 == 1 {
      BadLength(value);
      return false, 0;
    }
    var outputIndex: nat, accumulator: nat, bits: nat := 0, 0, 0;
    NothingDecoded();
    Weights();
    assert value[..0] == "" && output[..0] == [];
    for index := 0 to |value|
      invariant outputIndex <= output.Length
      invariant Decoding(value[..index], output[..outputIndex], accumulator, bits)
    {
      var d := DigitOf(value[index]);
      if d < 0 {
        BadCharacter(value, index);
        return false, 0;
      }
      DecodeStep(value[..index], output[..outputIndex], accumulator, bits, value[index]);
      assert value[..index] + [value[index]] == value[..index + 1];
      accumulator := ShiftedIn(accumulator, d);
      bits := (bits + 6) % 256;
      if bits >= 8 {
        bits := bits - 8;
        if outputIndex >= output.Length {
          NoRoom(value, index + 1, output[..outputIndex] + [TopByte(accumulator, bits)], LeftOver(accumulator, bits), bits);
          return false, 0;
        }
        ghost var before := output[..outputIndex];
        output[outputIndex] := TopByte(accumulator, bits);
        outputIndex := outputIndex + 1;
        assert output[..outputIndex] == before + [TopByte(accumulator, bits)];
        accumulator := LeftOver(accumulator, bits);
      }
    }
    assert value[..|value|] == value;
    WrongEnd(value, output[..outputIndex], accumulator, bits);
    DecodedOnly(value, output[..outputIndex], accumulator, bits);
    NotEmpty(value, output[..outputIndex], accumulator, bits);
    if bits >= 6 || (bits != 0 && accumulator != 0) {
      return false, 0;
    }
    assert IsEncoding(value, outputIndex);
    if wantsLength {
      return true, outputIndex;
    }
    assert output[..output.Length] == output[..];
    ok := outputIndex == output.Length;
  }

  lemma NotEmpty(value: string, out: bytes, accumulator: nat, bits: nat)
    requires Decoding(value, out, accumulator, bits) && value != "" && bits < 6
    ensures out != [] && (bits == 0 ==> accumulator == 0)
  {
  }
}

/**
 * UTF-8 (RFC 3629 sections 3 and 4) as the firmware writes and reads it:
 * `appendCodepoint` (firmware/src/pipa_json_policy.cpp) and `isSafeDisplayText`
 * (firmware/src/pipa_text_policy.h). Dafny's `char` is exactly a Unicode scalar value.
 * Masks and shifts are written as `%`, `*` and `/` by powers of two.
 */
module Utf8 {
  import opened Prelude

  /** `appendCodepoint` on an empty string. */
  function EncodeChar(c: char): (r: bytes)
    ensures 1 <= |r| <= 4
  {
    var u := c as int;
    if u <= 0x7F then [u]
    else if u <= 0x7FF then [0xC0 + u / 0x40, 0x80 + u % 0x40]
    else if u <= 0xFFFF then [0xE0 + u / 0x1000, 0x80 + u / 0x40 % 0x40, 0x80 + u % 0x40]
    else [0xF0 + u / 0x40000, 0x80 + u / 0x1000 % 0x40, 0x80 + u / 0x40 % 0x40, 0x80 + u % 0x40]
  }

  function Encode(text: string): (r: bytes)
    ensures |text| <= |r|
  {
    if text == "" then [] else EncodeChar(text[0]) + Encode(text[1..])
  }

  /** The code points no display text may contain: C0/C1 controls and invisible formatting. */
  predicate Banned(c: char) {
    var u := c as int;
    u < 0x20 || 0x7F <= u <= 0x9F || 0x200B <= u <= 0x200F || 0x202A <= u <= 0x202E ||
    0x2060 <= u <= 0x2069 || u == 0xFEFF
  }

  predicate Displayable(text: string) {
    forall c :: c in text ==> !Banned(c)
  }

  /** Text the device agrees to show, as the scalars it stands for. */
  predicate DisplaySafe(text: string, maxBytes: nat) {
    text != "" && |Encode(text)| <= maxBytes && Displayable(text)
  }

  /** The Core's own filter, `_is_safe_catalog_text`. */
  predicate CatalogSafe(text: string) {
    !exists c :: c in text &&
      (c as int < 0x20 || 0x7F <= c as int <= 0x9F || 0x200B <= c as int <= 0x200F ||
       0x202A <= c as int <= 0x202E || 0x2060 <= c as int <= 0x2069 || c as int == 0xFEFF)
  }

  predicate Continuation(value: byte) {
    0x80 <= value <= 0xBF
  }

  /** The payload bits of a two, three and four byte sequence put together. */
  function Join2(a: int, b: int): int {
    a % 0x20 * 0x40 + b % 0x40
  }

  function Join3(a: int, b: int, c: int): int {
    a % 0x10 * 0x1000 + b % 0x40 * 0x40 + c % 0x40
  }

  function Join4(a: int, b: int, c: int, d: int): int {
    a % 0x8 * 0x40000 + b % 0x40 * 0x1000 + c % 0x40 * 0x40 + d % 0x40
  }

  lemma Sextet(q: int, r: int)
    requires 0 <= r < 0x40
    ensures (q * 0x40 + r) / 0x40 == q && (q * 0x40 + r) % 0x40 == r
  {
  }

  lemma Shifts(u: nat)
    ensures u / 0x1000 == u / 0x40 / 0x40 && u / 0x40000 == u / 0x1000 / 0x40
  {
  }

  lemma Masks(a: int, b: int)
    ensures 0xC0 <= a <= 0xDF ==> a % 0x20 == a - 0xC0
    ensures 0xE0 <= a <= 0xEF ==> a % 0x10 == a - 0xE0
    ensures 0xF0 <= a <= 0xF7 ==> a % 0x8 == a - 0xF0
    ensures 0x80 <= b <= 0xBF ==> b % 0x40 == b - 0x80
  {
  }

  lemma Join2Split(u: nat)
    requires u <= 0x7FF
    ensures Join2(0xC0 + u / 0x40, 0x80 + u % 0x40) == u
  {
    Masks(0xC0 + u / 0x40, 0x80 + u % 0x40);
  }

  lemma Join3Split(u: nat)
    requires u <= 0xFFFF
    ensures Join3(0xE0 + u / 0x1000, 0x80 + u / 0x40 % 0x40, 0x80 + u % 0x40) == u
    ensures 0 <= u / 0x1000 <= 0xF && 0 <= u / 0x40 % 0x40 <= 0x3F && 0 <= u % 0x40 <= 0x3F
    ensures u > 0x7FF && u / 0x1000 == 0 ==> u / 0x40 % 0x40 >= 0x20
    ensures u <= 0xD7FF && u / 0x1000 == 0xD ==> u / 0x40 % 0x40 <= 0x1F
  {
    Shifts(u);
    Masks(0xE0 + u / 0x1000, 0x80 + u / 0x40 % 0x40);
    Masks(0, 0x80 + u % 0x40);
  }

  lemma Join4Split(u: nat)
    requires u <= 0x10FFFF
    ensures Join4(0xF0 + u / 0x40000, 0x80 + u / 0x1000 % 0x40, 0x80 + u / 0x40 % 0x40, 0x80 + u % 0x40) == u
    ensures 0 <= u / 0x40000 <= 4 && 0 <= u / 0x1000 % 0x40 <= 0x3F
    ensures 0 <= u / 0x40 % 0x40 <= 0x3F && 0 <= u % 0x40 <= 0x3F
    ensures u > 0xFFFF && u / 0x40000 == 0 ==> u / 0x1000 % 0x40 >= 0x10
    ensures u / 0x40000 == 4 ==> u / 0x1000 % 0x40 <= 0x0F
  {
    Shifts(u);
    Masks(0xF0 + u / 0x40000, 0x80 + u / 0x1000 % 0x40);
    Masks(0, 0x80 + u / 0x40 % 0x40);
    Masks(0, 0x80 + u % 0x40);
  }

  lemma SplitJoin2(a: int, b: int)
    requires 0xC0 <= a <= 0xDF && 0x80 <= b <= 0xBF
    ensures var u := Join2(a, b); a == 0xC0 + u / 0x40 && b == 0x80 + u % 0x40
  {
    Masks(a, b);
    Sextet(a - 0xC0, b - 0x80);
  }

  lemma SplitJoin3(a: int, b: int, c: int)
    requires 0xE0 <= a <= 0xEF && 0x80 <= b <= 0xBF && 0x80 <= c <= 0xBF
    ensures var u := Join3(a, b, c); a == 0xE0 + u / 0x1000 && b == 0x80 + u / 0x40 % 0x40 && c == 0x80 + u % 0x40
  {
    Masks(a, b);
    Masks(a, c);
    var high := (a - 0xE0) * 0x40 + (b - 0x80);
    Sextet(a - 0xE0, b - 0x80);
    Sextet(high, c - 0x80);
    Shifts(Join3(a, b, c));
  }

  lemma SplitJoin4(a: int, b: int, c: int, d: int)
    requires 0xF0 <= a <= 0xF7 && 0x80 <= b <= 0xBF && 0x80 <= c <= 0xBF && 0x80 <= d <= 0xBF
    ensures var u := Join4(a, b, c, d);
            a == 0xF0 + u / 0x40000 && b == 0x80 + u / 0x1000 % 0x40 && c == 0x80 + u / 0x40 % 0x40 && d == 0x80 + u % 0x40
  {
    Masks(a, b);
    Masks(a, c);
    Masks(a, d);
    var high := (a - 0xF0) * 0x40 + (b - 0x80);
    var middle := high * 0x40 + (c - 0x80);
    Sextet(a - 0xF0, b - 0x80);
    Sextet(high, c - 0x80);
    Sextet(middle, d - 0x80);
    Shifts(Join4(a, b, c, d));
  }

  datatype Scan = Malformed | Decoded(c: char, width: nat)

  /** One round of the validator's loop: the scalar that starts `s`, if it is well formed. */
  function DecodeFirst(s: bytes): (r: Scan)
    requires s != []
    ensures r.Decoded? ==> 1 <= r.width <= |s|
  {
    var first := s[0];
    if first <= 0x7F then Decoded(first as char, 1)
    else if 0xC2 <= first <= 0xDF then
      if |s| <= 1 || !Continuation(s[1]) then Malformed
      else
        Masks(first, s[1]);
        Decoded(Join2(first, s[1]) as char, 2)
    else if 0xE0 <= first <= 0xEF then
      if |s| <= 2 then Malformed
      else if !Continuation(s[2]) ||
              (if first == 0xE0 then s[1] < 0xA0 || s[1] > 0xBF
               else if first == 0xED then s[1] < 0x80 || s[1] > 0x9F
               else !Continuation(s[1])) then Malformed
      else
        Masks(first, s[1]);
        Masks(first, s[2]);
        Decoded(Join3(first, s[1], s[2]) as char, 3)
    else if 0xF0 <= first <= 0xF4 then
      if |s| <= 3 then Malformed
      else if !Continuation(s[2]) || !Continuation(s[3]) ||
              (if first == 0xF0 then s[1] < 0x90 || s[1] > 0xBF
               else if first == 0xF4 then s[1] < 0x80 || s[1] > 0x8F
               else !Continuation(s[1])) then Malformed
      else
        Masks(first, s[1]);
        Masks(first, s[2]);
        Masks(first, s[3]);
        Decoded(Join4(first, s[1], s[2], s[3]) as char, 4)
    else Malformed
  }

  predicate SafeFrom(s: bytes) {
    s == [] ||
    var scan := DecodeFirst(s);
    scan.Decoded? && !Banned(scan.c) && SafeFrom(s[scan.width..])
  }

  lemma Decode2(a: byte, b: byte, rest: bytes)
    requires 0xC2 <= a <= 0xDF && Continuation(b)
    ensures DecodeFirst([a, b] + rest) == Decoded(Join2(a, b) as char, 2)
  {
  }

  lemma Decode3(a: byte, b: byte, c: byte, rest: bytes)
    requires 0xE0 <= a <= 0xEF && Continuation(b) && Continuation(c)
    requires a == 0xE0 ==> b >= 0xA0
    requires a == 0xED ==> b <= 0x9F
    ensures 0 <= Join3(a, b, c) <= 0xFFFF && !(0xD800 <= Join3(a, b, c) <= 0xDFFF)
    ensures DecodeFirst([a, b, c] + rest) == Decoded(Join3(a, b, c) as char, 3)
  {
    Masks(a, b);
    Masks(a, c);
  }

  lemma Decode4(a: byte, b: byte, c: byte, d: byte, rest: bytes)
    requires 0xF0 <= a <= 0xF4 && Continuation(b) && Continuation(c) && Continuation(d)
    requires a == 0xF0 ==> b >= 0x90
    requires a == 0xF4 ==> b <= 0x8F
    ensures 0x10000 <= Join4(a, b, c, d) <= 0x10FFFF
    ensures DecodeFirst([a, b, c, d] + rest) == Decoded(Join4(a, b, c, d) as char, 4)
  {
    Masks(a, b);
    Masks(a, c);
    Masks(a, d);
  }

  /** Reading undoes writing: a scalar's encoding decodes to it, whatever follows. */
  lemma DecodeFirstInvertsEncodeChar(c: char, rest: bytes)
    ensures DecodeFirst(EncodeChar(c) + rest) == Decoded(c, |EncodeChar(c)|)
  {
    var s := EncodeChar(c) + rest;
    var u := c as int;
    if u <= 0x7F {
    } else if u <= 0x7FF {
      Join2Split(u);
      Decode2(0xC0 + u / 0x40, 0x80 + u % 0x40, rest);
    } else if u <= 0xFFFF {
      Invert3(c, rest);
    } else {
      Invert4(c, rest);
    }
  }

  lemma Invert3(c: char, rest: bytes)
    requires 0x7FF < c as int <= 0xFFFF
    ensures DecodeFirst(EncodeChar(c) + rest) == Decoded(c, 3)
  {
    var u := c as int;
    Join3Split(u);
    var a, b, d := u / 0x1000, u / 0x40 % 0x40, u % 0x40;
    Decode3(0xE0 + a, 0x80 + b, 0x80 + d, rest);
  }

  lemma Invert4(c: char, rest: bytes)
    requires 0xFFFF < c as int
    ensures DecodeFirst(EncodeChar(c) + rest) == Decoded(c, 4)
  {
    var u := c as int;
    Join4Split(u);
    var a, b, d, e := u / 0x40000, u / 0x1000 % 0x40, u / 0x40 % 0x40, u % 0x40;
    Decode4(0xF0 + a, 0x80 + b, 0x80 + d, 0x80 + e, rest);
  }

  lemma Rebuild2(a: byte, b: byte)
    requires 0xC2 <= a <= 0xDF && Continuation(b)
    ensures EncodeChar(Join2(a, b) as char) == [a, b]
  {
    Masks(a, b);
    SplitJoin2(a, b);
  }

  lemma Rebuild3(a: byte, b: byte, c: byte)
    requires 0xE0 <= a <= 0xEF && Continuation(b) && Continuation(c)
    requires (a == 0xE0 ==> b >= 0xA0) && (a == 0xED ==> b <= 0x9F)
    ensures 0 <= Join3(a, b, c) <= 0xFFFF && !(0xD800 <= Join3(a, b, c) <= 0xDFFF)
    ensures EncodeChar(Join3(a, b, c) as char) == [a, b, c]
  {
    Masks(a, b);
    Masks(a, c);
    SplitJoin3(a, b, c);
  }

  lemma Rebuild4(a: byte, b: byte, c: byte, d: byte)
    requires 0xF0 <= a <= 0xF4 && Continuation(b) && Continuation(c) && Continuation(d)
    requires (a == 0xF0 ==> b >= 0x90) && (a == 0xF4 ==> b <= 0x8F)
    ensures 0x10000 <= Join4(a, b, c, d) <= 0x10FFFF
    ensures EncodeChar(Join4(a, b, c, d) as char) == [a, b, c, d]
  {
    Masks(a, b);
    Masks(a, c);
    Masks(a, d);
    SplitJoin4(a, b, c, d);
  }

  /** Writing undoes reading: what was accepted is the one shortest encoding of its scalar. */
  lemma EncodeCharInvertsDecodeFirst(s: bytes)
    requires s != [] && DecodeFirst(s).Decoded?
    ensures EncodeChar(DecodeFirst(s).c) == s[..DecodeFirst(s).width]
  {
    var first := s[0];
    if first <= 0x7F {
    } else if first <= 0xDF {
      Rebuild2(first, s[1]);
    } else if first <= 0xEF {
      Rebuild3(first, s[1], s[2]);
    } else {
      Rebuild4(first, s[1], s[2], s[3]);
    }
  }

  /** The validator accepts the encoding of every displayable text. */
  lemma {:induction false} SafeFromEncode(text: string)
    ensures SafeFrom(Encode(text)) <==> Displayable(text)
  {
    if text != "" {
      var head, tail := EncodeChar(text[0]), Encode(text[1..]);
      DecodeFirstInvertsEncodeChar(text[0], tail);
      assert (head + tail)[|head|..] == tail;
      SafeFromEncode(text[1..]);
      assert Displayable(text) <==> !Banned(text[0]) && Displayable(text[1..]) by {
        assert forall c :: c in text <==> c == text[0] || c in text[1..];
      }
    }
  }

  /** The text a validated byte string stands for. */
  function Decode(s: bytes): (text: string)
    requires SafeFrom(s)
    ensures Encode(text) == s && Displayable(text)
  {
    if s == [] then ""
    else
      var scan := DecodeFirst(s);
      EncodeCharInvertsDecodeFirst(s);
      var tail := Decode(s[scan.width..]);
      assert ([scan.c] + tail)[1..] == tail;
      [scan.c] + tail
  }

  /** Equal encodings come from equal texts, so the decoded text is unique. */
  lemma {:induction false} EncodeInjective(a: string, b: string)
    requires Encode(a) == Encode(b)
    ensures a == b
  {
    if a == "" || b == "" {
    } else {
      var x, y := EncodeChar(a[0]), EncodeChar(b[0]);
      DecodeFirstInvertsEncodeChar(a[0], Encode(a[1..]));
      DecodeFirstInvertsEncodeChar(b[0], Encode(b[1..]));
      assert Encode(a)[|x|..] == Encode(a[1..]) && Encode(b)[|y|..] == Encode(b[1..]);
      EncodeInjective(a[1..], b[1..]);
      assert a == [a[0]] + a[1..] && b == [b[0]] + b[1..];
    }
  }

  /** The firmware and the Core ban the same characters. */
  lemma CatalogSafeIsDisplayable(text: string)
    ensures CatalogSafe(text) <==> Displayable(text)
  {
  }

  /**
   * `isSafeDisplayText`: accepts exactly the non-empty UTF-8 encodings of at most `maxBytes`
   * bytes whose text passes the Core's filter. `None` is the null pointer; `value` is what
   * precedes the terminating NUL.
   */
  method IsSafeDisplayText(value: Option<bytes>, maxBytes: nat) returns (safe: bool)
    ensures safe <==> value.Some? && exists text :: Encode(text) == value.value && DisplaySafe(text, maxBytes)
    ensures safe <==> value.Some? && exists text :: Encode(text) == value.value && text != "" && CatalogSafe(text) && |value.value| <= maxBytes
  {
    if value.None? {
      return false;
    }
    var s := value.value;
    Accepted(s, maxBytes);
    if |s| == 0 || |s| > maxBytes {
      return false;
    }
    safe := ScanText(s);
  }

  /** The loop of `isSafeDisplayText`. */
  method ScanText(s: bytes) returns (safe: bool)
    ensures safe <==> SafeFrom(s)
  {
    var index := 0;
    while index < |s|
      invariant 0 <= index <= |s|
      invariant SafeFrom(s) <==> SafeFrom(s[index..])
    {
      var ok, codePoint, width := ReadScalar(s, index);
      if !ok {
        return false;
      }
      var control := codePoint < 0x20 || 0x7F <= codePoint <= 0x9F;
      var formatting := 0x200B <= codePoint <= 0x200F || 0x202A <= codePoint <= 0x202E ||
                        0x2060 <= codePoint <= 0x2069 || codePoint == 0xFEFF;
      if control || formatting {
        return false;
      }
      assert s[index..][width..] == s[index + width..];
      index := index + width;
    }
    safe := true;
  }

  /** The classification of the lead byte inside the loop. */
  method ReadScalar(s: bytes, index: nat) returns (ok: bool, codePoint: nat, width: nat)
    requires index < |s|
    ensures ok <==> DecodeFirst(s[index..]).Decoded?
    ensures ok ==> codePoint == DecodeFirst(s[index..]).c as int && width == DecodeFirst(s[index..]).width
  {
    codePoint, width := 0, 0;
    var first := s[index];
    if first <= 0x7F {
      return true, first, 1;
    }
    if 0xC2 <= first <= 0xDF {
      if index + 1 >= |s| || !Continuation(s[index + 1]) {
        return false, 0, 0;
      }
      return true, Join2(first, s[index + 1]), 2;
    }
    if 0xE0 <= first <= 0xEF {
      if index + 2 >= |s| {
        return false, 0, 0;
      }
      var second, third := s[index + 1], s[index + 2];
      if !Continuation(third) ||
         (if first == 0xE0 then second < 0xA0 || second > 0xBF
          else if first == 0xED then second < 0x80 || second > 0x9F
          else !Continuation(second)) {
        return false, 0, 0;
      }
      return true, Join3(first, second, third), 3;
    }
    if 0xF0 <= first <= 0xF4 {
      if index + 3 >= |s| {
        return false, 0, 0;
      }
      var second, third, fourth := s[index + 1], s[index + 2], s[index + 3];
      if !Continuation(third) || !Continuation(fourth) ||
         (if first == 0xF0 then second < 0x90 || second > 0xBF
          else if first == 0xF4 then second < 0x80 || second > 0x8F
          else !Continuation(second)) {
        return false, 0, 0;
      }
      return true, Join4(first, second, third, fourth), 4;
    }
    ok := false;
  }

  /** What the loop decides, in terms of the text. */
  lemma Accepted(s: bytes, maxBytes: nat)
    ensures (s != [] && |s| <= maxBytes && SafeFrom(s)) <==>
            exists text :: Encode(text) == s && DisplaySafe(text, maxBytes)
    ensures (s != [] && |s| <= maxBytes && SafeFrom(s)) <==>
            exists text :: Encode(text) == s && text != "" && CatalogSafe(text) && |s| <= maxBytes
  {
    if s != [] && |s| <= maxBytes && SafeFrom(s) {
      var text := Decode(s);
      CatalogSafeIsDisplayable(text);
      assert Encode(text) == s && DisplaySafe(text, maxBytes);
    }
    forall text | Encode(text) == s
      ensures Displayable(text) <==> SafeFrom(s)
      ensures CatalogSafe(text) <==> Displayable(text)
    {
      SafeFromEncode(text);
      CatalogSafeIsDisplayable(text);
    }
  }
}

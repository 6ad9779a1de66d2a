/**
 * What the device's display makes of a confirmation summary (firmware/src/pipa_display_text.cpp).
 */
module DisplayText {
  import opened Prelude
  import opened Utf8

  const MAX_SUMMARY_BYTES := 96
  const MAX_LINE_CHARACTERS := 23

  // ----- Glyphs -----

  /** The display's glyph for one scalar: upper case ASCII, accents dropped, anything else a question mark. */
  function Glyph(c: char): char {
    if c == '\r' || c == '\n' then ' '
    else if 'a' <= c <= 'z' then 'A' + (c - 'a')
    else if ' ' <= c <= '~' then c
    else if c == '\U{C1}' || c == '\U{E1}' then 'A'
    else if c == '\U{C9}' || c == '\U{E9}' then 'E'
    else if c == '\U{CD}' || c == '\U{ED}' then 'I'
    else if c == '\U{D3}' || c == '\U{F3}' then 'O'
    else if c == '\U{DA}' || c == '\U{FA}' || c == '\U{DC}' || c == '\U{FC}' then 'U'
    else if c == '\U{D1}' || c == '\U{F1}' then 'N'
    else '?'
  }

  function Glyphs(text: string): string {
    if text == "" then "" else [Glyph(text[0])] + Glyphs(text[1..])
  }

  /** Any bytes at all: one glyph for every well-formed scalar, a question mark for every other byte. */
  function Shown(s: bytes): string {
    if s == [] then ""
    else match DecodeFirst(s)
      case Malformed => "?" + Shown(s[1..])
      case Decoded(c, width) => [Glyph(c)] + Shown(s[width..])
  }

  function TrimLeft(s: string): string {
    if s != "" && s[0] == ' ' then TrimLeft(s[1..]) else s
  }

  function TrimRight(s: string): string {
    if s != "" && s[|s| - 1] == ' ' then TrimRight(s[..|s| - 1]) else s
  }

  function Take(s: string, n: nat): string {
    if |s| <= n then s else s[..n]
  }

  function Normalized(s: bytes): string {
    TrimRight(TrimLeft(Take(Shown(s), MAX_SUMMARY_BYTES)))
  }

  // ----- What the display can be sent -----

  predicate Plain(c: char) {
    ' ' <= c <= '~' && !('a' <= c <= 'z')
  }

  predicate AllPlain(s: string) {
    forall c :: c in s ==> Plain(c)
  }

  predicate Trimmed(s: string) {
    s == "" || (s[0] != ' ' && s[|s| - 1] != ' ')
  }

  lemma {:induction false} ShownIsPlain(s: bytes)
    ensures AllPlain(Shown(s))
    decreases |s|
  {
    if s != [] {
      match DecodeFirst(s)
      case Malformed => ShownIsPlain(s[1..]);
      case Decoded(c, width) => ShownIsPlain(s[width..]);
    }
  }

  lemma {:induction false} TrimLeftSlice(s: string) returns (k: nat)
    ensures k <= |s| && TrimLeft(s) == s[k..]
    ensures k < |s| ==> s[k] != ' '
  {
    k := 0;
    if s != "" && s[0] == ' ' {
      var rest := TrimLeftSlice(s[1..]);
      k := rest + 1;
      assert s[1..][rest..] == s[k..];
    }
  }

  lemma {:induction false} TrimRightSlice(s: string) returns (k: nat)
    ensures k <= |s| && TrimRight(s) == s[..k]
    ensures k > 0 ==> s[k - 1] != ' '
  {
    k := |s|;
    if s != "" && s[k - 1] == ' ' {
      var rest := s[..k - 1];
      k := TrimRightSlice(rest);
      assert rest[..k] == s[..k];
    }
  }

  function Spaces(k: nat): string {
    seq(k, _ => ' ')
  }

  /** Whatever bytes arrive, the display is given at most 96 printable ASCII characters without lower case, trimmed. */
  lemma NormalizedIsPlain(s: bytes)
    ensures |Normalized(s)| <= MAX_SUMMARY_BYTES && AllPlain(Normalized(s)) && Trimmed(Normalized(s))
  {
    var taken := Take(Shown(s), MAX_SUMMARY_BYTES);
    var left := TrimLeft(taken);
    ShownIsPlain(s);
    var first := TrimLeftSlice(taken);
    var last := TrimRightSlice(left);
    assert AllPlain(taken) && AllPlain(left) && AllPlain(Normalized(s));
  }

  /** Nothing but spaces is cut off the first 96 glyphs. */
  lemma NormalizedKeeps(s: bytes) returns (left: nat, right: nat)
    ensures Take(Shown(s), 96) == Spaces(left) + Normalized(s) + Spaces(right)
  {
    var taken := Take(Shown(s), MAX_SUMMARY_BYTES);
    left := OnlySpacesLeft(taken);
    right := OnlySpacesRight(TrimLeft(taken));
  }

  lemma {:induction false} OnlySpacesLeft(s: string) returns (k: nat)
    ensures s == Spaces(k) + TrimLeft(s)
  {
    k := 0;
    if s != "" && s[0] == ' ' {
      k := OnlySpacesLeft(s[1..]);
      k := k + 1;
      assert s == [' '] + s[1..];
    }
  }

  lemma {:induction false} OnlySpacesRight(s: string) returns (k: nat)
    ensures s == TrimRight(s) + Spaces(k)
  {
    k := 0;
    if s != "" && s[|s| - 1] == ' ' {
      var rest := s[..|s| - 1];
      k := OnlySpacesRight(rest);
      assert s == rest + [' '];
      k := k + 1;
    }
  }

  // ----- The glyphs -----

  const LETTERS := "abcdefghijklm" + "nopqrstuvwxyz"
  const LETTER_GLYPHS := "ABCDEFGHIJKLM" + "NOPQRSTUVWXYZ"
  const ACUTE := "\U{C1}\U{E1}\U{C9}\U{E9}\U{CD}\U{ED}\U{D3}\U{F3}"
  const DIAERESIS_AND_TILDE := "\U{DA}\U{FA}\U{DC}\U{FC}\U{D1}\U{F1}"
  const ACCENTED := ACUTE + DIAERESIS_AND_TILDE
  const ACCENTED_GLYPHS := "AAEEIIOO" + "UUUUNN"

  /**
   * Lower case is shown as upper case, the Spanish accented letters without their accents, line breaks as spaces, other
   * printable ASCII as it is, and everything else as a question mark.
   */
  lemma GlyphTable(c: char)
    ensures forall k :: 0 <= k < 26 ==> Glyph(LETTERS[k]) == LETTER_GLYPHS[k]
    ensures forall k :: 0 <= k < 14 ==> Glyph(ACCENTED[k]) == ACCENTED_GLYPHS[k]
    ensures Glyph('\r') == Glyph('\n') == ' '
    ensures Plain(c) ==> Glyph(c) == c
    ensures !Plain(c) && c !in LETTERS && c !in ACCENTED && c != '\r' && c != '\n' ==> Glyph(c) == '?'
  {
    if !Plain(c) && Glyph(c) != '?' && c != '\r' && c != '\n' {
      LetterOrAccented(c);
    }
  }

  lemma LetterOrAccented(c: char)
    requires 'a' <= c <= 'z' || (c > '~' && Glyph(c) != '?')
    ensures c in LETTERS || c in ACCENTED
  {
    if c <= 'm' {
      assert LETTERS[c as int - 'a' as int] == c;
    } else if c <= 'z' {
      assert "nopqrstuvwxyz"[c as int - 'n' as int] == c;
      assert LETTERS[c as int - 'a' as int] == c;
    } else {
      InBoth(ACUTE, DIAERESIS_AND_TILDE, c);
    }
  }

  lemma InBoth(a: string, b: string, c: char)
    ensures c in a || c in b ==> c in a + b
  {
  }

  // ----- Relation to the validated text -----

  /** On text, one glyph for every scalar, in order. */
  lemma {:induction false} ShownText(text: string)
    ensures Shown(Encode(text)) == Glyphs(text)
  {
    if text != "" {
      var c, rest := text[0], Encode(text[1..]);
      DecodeFirstInvertsEncodeChar(c, rest);
      assert (EncodeChar(c) + rest)[|EncodeChar(c)|..] == rest;
      ShownText(text[1..]);
    }
  }

  /** A summary the validator accepted is displayed as the glyphs of the text it accepted. */
  lemma AcceptedIsShown(s: bytes)
    requires SafeFrom(s)
    ensures Shown(s) == Glyphs(Decode(s)) && |Shown(s)| == |Decode(s)|
  {
    ShownText(Decode(s));
    GlyphsLength(Decode(s));
  }

  lemma {:induction false} GlyphsLength(text: string)
    ensures |Glyphs(text)| == |text|
  {
    if text != "" {
      GlyphsLength(text[1..]);
    }
  }

  lemma {:induction false} PlainGlyphs(text: string)
    requires AllPlain(text)
    ensures Glyphs(text) == text
  {
    if text != "" {
      assert Plain(text[0]) && text == [text[0]] + text[1..];
      PlainGlyphs(text[1..]);
    }
  }

  lemma TrimmedStays(s: string)
    requires Trimmed(s)
    ensures TrimRight(TrimLeft(s)) == s
  {
  }

  /** Normalising what was normalised changes nothing. */
  lemma NormalizedIsStable(s: bytes)
    ensures Normalized(Encode(Normalized(s))) == Normalized(s)
  {
    NormalizedIsPlain(s);
    ShownText(Normalized(s));
    PlainGlyphs(Normalized(s));
    TrimmedStays(Normalized(s));
  }

  // ----- The firmware's loops -----

  /** The two-byte Spanish letters, by their second byte after 0xC3. */
  function Accented(second: byte): char {
    if second == 0x81 || second == 0xA1 then 'A'
    else if second == 0x89 || second == 0xA9 then 'E'
    else if second == 0x8D || second == 0xAD then 'I'
    else if second == 0x93 || second == 0xB3 then 'O'
    else if second == 0x9A || second == 0x9C || second == 0xBA || second == 0xBC then 'U'
    else if second == 0x91 || second == 0xB1 then 'N'
    else '?'
  }

  /** `mappedUtf8`, on what remains from `index`: in step with the validator on every byte string. */
  method MappedUtf8(text: bytes, index: nat) returns (mapped: char, consumed: nat)
    requires index < |text| && text[index] >= 0x80
    ensures var scan := DecodeFirst(text[index..]);
            && (scan.Malformed? ==> mapped == '?' && consumed == 1)
            && (scan.Decoded? ==> mapped == Glyph(scan.c) && consumed == scan.width)
  {
    var lead := text[index];
    var remaining := |text| - index;
    var expected := 1;
    if 0xC2 <= lead <= 0xDF {
      expected := 2;
    } else if 0xE0 <= lead <= 0xEF {
      expected := 3;
    } else if 0xF0 <= lead <= 0xF4 {
      expected := 4;
    }
    ghost var s := text[index..];
    if expected == 1 || remaining < expected {
      return '?', 1;
    }
    for i := 1 to expected
      invariant forall k :: 1 <= k < i ==> Continuation(s[k])
    {
      if !(0x80 <= text[index + i] < 0xC0) {
        assert !Continuation(s[i]);
        return '?', 1;
      }
    }
    if (lead == 0xE0 && text[index + 1] < 0xA0) || (lead == 0xED && text[index + 1] >= 0xA0) ||
       (lead == 0xF0 && text[index + 1] < 0x90) || (lead == 0xF4 && text[index + 1] >= 0x90)
    {
      return '?', 1;
    }
    ScannedGlyph(s, expected);
    mapped := if expected != 2 || lead != 0xC3 then '?' else Accented(text[index + 1]);
    consumed := expected;
  }

  lemma ScannedGlyph(s: bytes, expected: nat)
    requires 2 <= expected <= 4 && |s| >= expected && DecodeFirst(s).Decoded? && DecodeFirst(s).width == expected
    ensures Glyph(DecodeFirst(s).c) == if expected != 2 || s[0] != 0xC3 then '?' else Accented(s[1])
  {
    if expected == 2 {
      Masks(s[0], s[1]);
      assert s[0] == 0xC3 ==> Join2(s[0], s[1]) == 0x40 + s[1];
      assert s[0] == 0xC2 ==> 0x80 <= Join2(s[0], s[1]) < 0xC0;
      assert s[0] > 0xC3 ==> Join2(s[0], s[1]) >= 0x100;
    } else {
      WideScalar(s);
    }
  }

  lemma WideScalar(s: bytes)
    requires s != [] && DecodeFirst(s).Decoded? && DecodeFirst(s).width > 2
    ensures DecodeFirst(s).c as int >= 0x100
  {
    Masks(s[0], s[1]);
  }

  lemma ShownNothing()
    ensures Shown([]) == ""
  {
  }

  lemma ShownAscii(text: bytes, index: nat)
    requires index < |text| && text[index] < 0x80
    ensures Shown(text[index..]) == [Glyph(text[index] as char)] + Shown(text[index + 1..])
  {
    hide Glyph;
    assert text[index..][1..] == text[index + 1..];
  }

  lemma ShownOther(text: bytes, index: nat, mapped: char, consumed: nat)
    requires index < |text| && 1 <= consumed
    requires var scan := DecodeFirst(text[index..]);
             && (scan.Malformed? ==> mapped == '?' && consumed == 1)
             && (scan.Decoded? ==> mapped == Glyph(scan.c) && consumed == scan.width)
    ensures index + consumed <= |text| && Shown(text[index..]) == [mapped] + Shown(text[index + consumed..])
  {
    hide Glyph, DecodeFirst;
    assert text[index..][consumed..] == text[index + consumed..];
  }

  method NormalizeSummary(text: bytes) returns (summary: string)
    ensures summary == Normalized(text)
  {
    hide Shown, DecodeFirst, TrimLeft, TrimRight;
    var result := "";
    var index := 0;
    assert text[0..] == text;
    while index < |text| && |result| < MAX_SUMMARY_BYTES
      invariant index <= |text| && |result| <= MAX_SUMMARY_BYTES
      invariant Shown(text) == result + Shown(text[index..])
      decreases |text| - index
    {
      var value := text[index];
      if value < 0x80 {
        var glyph := if value == 0x0D || value == 0x0A then ' '
                     else if 0x20 <= value <= 0x7E then if 0x61 <= value <= 0x7A then (value - 0x20) as char else value as char
                     else '?';
        ShownAscii(text, index);
        result := result + [glyph];
        index := index + 1;
      } else {
        var mapped, consumed := MappedUtf8(text, index);
        ShownOther(text, index, mapped, consumed);
        result := result + [mapped];
        index := index + consumed;
      }
    }
    assert index == |text| ==> Shown(text[index..]) == "" by {
      ShownNothing();
    }
    assert result == Take(Shown(text), MAX_SUMMARY_BYTES);
    summary := TrimSpaces(result);
  }

  /** `find_first_not_of`, `find_last_not_of` and `substr`. */
  method TrimSpaces(result: string) returns (summary: string)
    ensures summary == TrimRight(TrimLeft(result))
  {
    var first := 0;
    assert result[0..] == result;
    while first < |result| && result[first] == ' '
      invariant first <= |result| && TrimLeft(result) == TrimLeft(result[first..])
    {
      assert result[first..][1..] == result[first + 1..];
      first := first + 1;
    }
    if first == |result| {
      return "";
    }
    var last := |result|;
    assert result[first..last] == result[first..];
    while result[last - 1] == ' '
      invariant first < last <= |result| && result[first] != ' '
      invariant TrimRight(result[first..]) == TrimRight(result[first..last])
      decreases last
    {
      assert result[first..last][..last - first - 1] == result[first..last - 1];
      last := last - 1;
    }
    summary := result[first..last];
  }

  /** A line break: at the last space that leaves at most 23 characters, or after 23 when there is none. */
  predicate BreaksAt(summary: string, n: nat) {
    && 0 < n <= MAX_LINE_CHARACTERS < |summary|
    && (forall i :: n < i <= MAX_LINE_CHARACTERS ==> summary[i] != ' ')
    && (summary[n] == ' ' || (n == MAX_LINE_CHARACTERS && forall i :: 0 < i <= n ==> summary[i] != ' '))
  }

  /** After the first line come `k` spaces and then the second line, of which only 23 characters are shown. */
  predicate ContinuesAfter(summary: string, first: string, second: string, k: nat) {
    && first + Spaces(k) <= summary
    && var rest := summary[|first| + k..];
       (rest == "" || rest[0] != ' ') && second == Take(rest, 23)
  }

  method SplitSummary(summary: string) returns (first: string, second: string)
    ensures |first| <= MAX_LINE_CHARACTERS && |second| <= MAX_LINE_CHARACTERS
    ensures |summary| <= MAX_LINE_CHARACTERS ==> first == summary && second == ""
    ensures |summary| > MAX_LINE_CHARACTERS ==> BreaksAt(summary, |first|)
    ensures exists k :: ContinuesAfter(summary, first, second, k)
  {
    if |summary| <= MAX_LINE_CHARACTERS {
      assert summary + Spaces(0) == summary;
      assert ContinuesAfter(summary, summary, "", 0);
      return summary, "";
    }
    var split := MAX_LINE_CHARACTERS;
    while split > 0 && summary[split] != ' '
      invariant 0 <= split <= MAX_LINE_CHARACTERS
      invariant forall i :: split < i <= MAX_LINE_CHARACTERS ==> summary[i] != ' '
    {
      split := split - 1;
    }
    if split == 0 {
      split := MAX_LINE_CHARACTERS;
    }
    first := summary[..split];
    var rest := summary[split..];
    var index := 0;
    while index < |rest| && rest[index] == ' '
      invariant index <= |rest| && rest[..index] == Spaces(index)
    {
      index := index + 1;
    }
    second := rest[index..];
    if |second| > MAX_LINE_CHARACTERS {
      second := second[..MAX_LINE_CHARACTERS];
    }
    assert ContinuesAfter(summary, first, second, index) by {
      assert first + Spaces(index) == summary[..split + index];
      assert summary[split + index..] == rest[index..];
    }
  }
}

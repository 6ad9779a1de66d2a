/**
 * The texts that are authenticated or signed, and the nonce: record headers
 * (firmware/src/pipa_secure_session.cpp), audio associated data
 * (firmware/src/pipa_secure_audio.cpp), handshake transcripts
 * (firmware/src/pipa_secure_handshake.cpp), and their Python counterparts.
 *
 * Every character of these texts stands for one byte.
 */
module Framing {
  import opened Prelude

  type Octets = string

  const JSON_AAD: Octets := "pipa/json/v2"
  const AUDIO_PREFIX: Octets := "pipa/audio/v2\0"

  const QUOTE := '\"'

  // ----- Splitting -----

  lemma CancelPrefix(p: Octets, x: Octets, y: Octets)
    requires p + x == p + y
    ensures x == y
  {
    assert x == (p + x)[|p|..] && y == (p + y)[|p|..];
  }

  /** A field that does not contain its delimiter ends at the first one. */
  lemma SplitAtDelimiter(a: Octets, b: Octets, c: char, x: Octets, y: Octets)
    requires c !in a && c !in b && a + ([c] + x) == b + ([c] + y)
    ensures a == b && x == y
  {
    var left, right := a + ([c] + x), b + ([c] + y);
    assert left[|a|] == c && right[|b|] == c;
    assert forall k :: 0 <= k < |a| ==> left[k] == a[k];
    assert forall k :: 0 <= k < |b| ==> right[k] == b[k];
    assert a == left[..|a|] && b == right[..|b|];
    CancelPrefix(a, [c] + x, [c] + y);
    CancelPrefix([c], x, y);
  }

  // ----- Decimal numbers -----

  function Digit(d: nat): char
    requires d < 10
  {
    '0' + d as char
  }

  function Decimal(n: nat): (r: Octets)
    ensures r != "" && forall c :: c in r ==> '0' <= c <= '9'
  {
    if n < 10 then [Digit(n)] else Decimal(n / 10) + [Digit(n % 10)]
  }

  lemma {:induction false} DecimalInjective(a: nat, b: nat)
    requires Decimal(a) == Decimal(b)
    ensures a == b
  {
    assert a >= 10 ==> |Decimal(a)| == |Decimal(a / 10)| + 1 >= 2;
    assert b >= 10 ==> |Decimal(b)| == |Decimal(b / 10)| + 1 >= 2;
    if a < 10 {
      assert Decimal(a)[0] == Decimal(b)[0];
    } else {
      var x, y := Decimal(a / 10), Decimal(b / 10);
      assert x == Decimal(a)[..|Decimal(a)| - 1] && y == Decimal(b)[..|Decimal(b)| - 1];
      assert Decimal(a)[|Decimal(a)| - 1] == Digit(a % 10) && Decimal(b)[|Decimal(b)| - 1] == Digit(b % 10);
      DecimalInjective(a / 10, b / 10);
    }
  }

  function NumberOf(s: Octets): int {
    if s == "" then 0 else NumberOf(s[..|s| - 1]) * 10 + (s[|s| - 1] as int - '0' as int)
  }

  /** The decimal text of a number reads as that number and has no leading zero. */
  lemma {:induction false} DecimalValue(n: nat)
    ensures NumberOf(Decimal(n)) == n && (n > 0 ==> Decimal(n)[0] != '0')
  {
    if n >= 10 {
      var s := Decimal(n);
      assert s[..|s| - 1] == Decimal(n / 10);
      DecimalValue(n / 10);
    } else {
      assert Decimal(n)[..0] == "";
    }
  }

  // ----- Identifiers -----

  predicate IdentifierChar(c: char) {
    'a' <= c <= 'z' || 'A' <= c <= 'Z' || '0' <= c <= '9' || c == '-' || c == '_'
  }

  predicate Identifier(s: string, maximum: nat) {
    1 <= |s| <= maximum && forall c :: c in s ==> IdentifierChar(c)
  }

  predicate Quotable(s: Octets) {
    QUOTE !in s
  }

  // ----- Record header -----

  function Header(sessionId: string, sequence: nat): Octets {
    "{\"protocol_version\":2,\"sequence\":" + (Decimal(sequence) + ([','] + ("\"session_id\":\"" + (sessionId + ([QUOTE] + "}")))))
  }

  /** Header followed by associated data determines the sequence, the session and the data. */
  lemma HeaderDecodes(s1: string, n1: nat, a1: Octets, s2: string, n2: nat, a2: Octets)
    requires Quotable(s1) && Quotable(s2) && Header(s1, n1) + a1 == Header(s2, n2) + a2
    ensures s1 == s2 && n1 == n2 && a1 == a2
  {
    var lead, key := "{\"protocol_version\":2,\"sequence\":", "\"session_id\":\"";
    var x1, x2 := key + (s1 + ([QUOTE] + ("}" + a1))), key + (s2 + ([QUOTE] + ("}" + a2)));
    assert Header(s1, n1) + a1 == lead + (Decimal(n1) + ([','] + x1));
    assert Header(s2, n2) + a2 == lead + (Decimal(n2) + ([','] + x2));
    CancelPrefix(lead, Decimal(n1) + ([','] + x1), Decimal(n2) + ([','] + x2));
    SplitAtDelimiter(Decimal(n1), Decimal(n2), ',', x1, x2);
    DecimalInjective(n1, n2);
    CancelPrefix(key, s1 + ([QUOTE] + ("}" + a1)), s2 + ([QUOTE] + ("}" + a2)));
    SplitAtDelimiter(s1, s2, QUOTE, "}" + a1, "}" + a2);
    CancelPrefix("}", a1, a2);
  }

  // ----- Audio associated data -----

  const AUDIO_LEAD: Octets := "{\"audio_protocol_version\":2,\"bits_per_sample\":16,\"channels\":1,\"chunk_index\":"
  const FINAL_KEY: Octets := "\"final\":"
  const STREAM_KEYS: Octets := "\"sample_rate\":16000,\"stream_id\":\""

  function FinalText(final: bool): Octets {
    if final then "true" else "false"
  }

  function AudioAad(streamId: string, index: nat, final: bool): Octets {
    AUDIO_PREFIX + (AUDIO_LEAD + (Decimal(index) + ([','] + (FINAL_KEY + (FinalText(final) + ([','] + (STREAM_KEYS +
      (streamId + ([QUOTE] + "}")))))))))
  }

  lemma AudioAadDecodes(s1: string, i1: nat, f1: bool, s2: string, i2: nat, f2: bool)
    requires Quotable(s1) && Quotable(s2) && AudioAad(s1, i1, f1) == AudioAad(s2, i2, f2)
    ensures s1 == s2 && i1 == i2 && f1 == f2
  {
    var z1, z2 := STREAM_KEYS + (s1 + ([QUOTE] + "}")), STREAM_KEYS + (s2 + ([QUOTE] + "}"));
    var y1, y2 := FinalText(f1) + ([','] + z1), FinalText(f2) + ([','] + z2);
    var x1, x2 := Decimal(i1) + ([','] + (FINAL_KEY + y1)), Decimal(i2) + ([','] + (FINAL_KEY + y2));
    CancelPrefix(AUDIO_PREFIX, AUDIO_LEAD + x1, AUDIO_LEAD + x2);
    CancelPrefix(AUDIO_LEAD, x1, x2);
    SplitAtDelimiter(Decimal(i1), Decimal(i2), ',', FINAL_KEY + y1, FINAL_KEY + y2);
    DecimalInjective(i1, i2);
    CancelPrefix(FINAL_KEY, y1, y2);
    SplitAtDelimiter(FinalText(f1), FinalText(f2), ',', z1, z2);
    assert FinalText(true)[0] != FinalText(false)[0];
    CancelPrefix(STREAM_KEYS, s1 + ([QUOTE] + "}"), s2 + ([QUOTE] + "}"));
    SplitAtDelimiter(s1, s2, QUOTE, "}", "}");
  }

  /** A control record can never be opened as audio, nor audio as a control record. */
  lemma AudioIsNotJson(streamId: string, index: nat, final: bool)
    ensures AudioAad(streamId, index, final) != JSON_AAD
  {
    assert AudioAad(streamId, index, final)[5] == AUDIO_PREFIX[5] == 'a';
    assert JSON_AAD[5] == 'j';
  }

  // ----- Handshake texts -----

  datatype ClientHello = ClientHello(ephemeralKey: string, clientId: string, nonce: string, sessionId: string)

  datatype ServerHello = ServerHello(ephemeralKey: string, serverId: string, nonce: string)

  predicate QuotableClient(c: ClientHello) {
    Quotable(c.ephemeralKey) && Quotable(c.clientId) && Quotable(c.nonce) && Quotable(c.sessionId)
  }

  predicate QuotableServer(s: ServerHello) {
    Quotable(s.ephemeralKey) && Quotable(s.serverId) && Quotable(s.nonce)
  }

  /** The part all four texts start with; `rest` follows the client nonce. */
  function ClientPart(c: ClientHello, rest: Octets): Octets {
    "{\"client_ephemeral_public_key\":\"" + (c.ephemeralKey + ([QUOTE] + (",\"client_id\":\"" + (c.clientId + ([QUOTE] +
      (",\"client_nonce\":\"" + (c.nonce + ([QUOTE] + (",\"protocol_version\":2," + rest)))))))))
  }

  function SessionPart(sessionId: string): Octets {
    "\"session_id\":\"" + (sessionId + ([QUOTE] + "}"))
  }

  function ServerPart(s: ServerHello, sessionId: string): Octets {
    "\"server_ephemeral_public_key\":\"" + (s.ephemeralKey + ([QUOTE] + (",\"server_id\":\"" + (s.serverId + ([QUOTE] +
      (",\"server_nonce\":\"" + (s.nonce + ([QUOTE] + ("," + SessionPart(sessionId))))))))))
  }

  function ClientUnsigned(c: ClientHello): Octets {
    ClientPart(c, SessionPart(c.sessionId))
  }

  function ClientSigned(c: ClientHello): Octets {
    ClientPart(c, "\"role\":\"client\"," + SessionPart(c.sessionId))
  }

  function Transcript(c: ClientHello, s: ServerHello): Octets {
    ClientPart(c, ServerPart(s, c.sessionId))
  }

  function ServerSigned(c: ClientHello, s: ServerHello): Octets {
    ClientPart(c, "\"role\":\"server\"," + ServerPart(s, c.sessionId))
  }

  lemma ClientPartDecodes(c1: ClientHello, r1: Octets, c2: ClientHello, r2: Octets)
    requires QuotableClient(c1) && QuotableClient(c2) && ClientPart(c1, r1) == ClientPart(c2, r2)
    ensures c1.ephemeralKey == c2.ephemeralKey && c1.clientId == c2.clientId && c1.nonce == c2.nonce && r1 == r2
  {
    var p, q, r, t := "{\"client_ephemeral_public_key\":\"", ",\"client_id\":\"", ",\"client_nonce\":\"", ",\"protocol_version\":2,";
    var z1, z2 := c1.nonce + ([QUOTE] + (t + r1)), c2.nonce + ([QUOTE] + (t + r2));
    var y1, y2 := c1.clientId + ([QUOTE] + (r + z1)), c2.clientId + ([QUOTE] + (r + z2));
    var x1, x2 := c1.ephemeralKey + ([QUOTE] + (q + y1)), c2.ephemeralKey + ([QUOTE] + (q + y2));
    CancelPrefix(p, x1, x2);
    SplitAtDelimiter(c1.ephemeralKey, c2.ephemeralKey, QUOTE, q + y1, q + y2);
    CancelPrefix(q, y1, y2);
    SplitAtDelimiter(c1.clientId, c2.clientId, QUOTE, r + z1, r + z2);
    CancelPrefix(r, z1, z2);
    SplitAtDelimiter(c1.nonce, c2.nonce, QUOTE, t + r1, t + r2);
    CancelPrefix(t, r1, r2);
  }

  lemma SessionPartDecodes(s1: string, s2: string)
    requires Quotable(s1) && Quotable(s2) && SessionPart(s1) == SessionPart(s2)
    ensures s1 == s2
  {
    CancelPrefix("\"session_id\":\"", s1 + ([QUOTE] + "}"), s2 + ([QUOTE] + "}"));
    SplitAtDelimiter(s1, s2, QUOTE, "}", "}");
  }

  lemma ServerPartDecodes(s1: ServerHello, i1: string, s2: ServerHello, i2: string)
    requires QuotableServer(s1) && QuotableServer(s2) && Quotable(i1) && Quotable(i2)
    requires ServerPart(s1, i1) == ServerPart(s2, i2)
    ensures s1 == s2 && i1 == i2
  {
    var p, q, r := "\"server_ephemeral_public_key\":\"", ",\"server_id\":\"", ",\"server_nonce\":\"";
    var z1, z2 := s1.nonce + ([QUOTE] + ("," + SessionPart(i1))), s2.nonce + ([QUOTE] + ("," + SessionPart(i2)));
    var y1, y2 := s1.serverId + ([QUOTE] + (r + z1)), s2.serverId + ([QUOTE] + (r + z2));
    var x1, x2 := s1.ephemeralKey + ([QUOTE] + (q + y1)), s2.ephemeralKey + ([QUOTE] + (q + y2));
    CancelPrefix(p, x1, x2);
    SplitAtDelimiter(s1.ephemeralKey, s2.ephemeralKey, QUOTE, q + y1, q + y2);
    CancelPrefix(q, y1, y2);
    SplitAtDelimiter(s1.serverId, s2.serverId, QUOTE, r + z1, r + z2);
    CancelPrefix(r, z1, z2);
    SplitAtDelimiter(s1.nonce, s2.nonce, QUOTE, "," + SessionPart(i1), "," + SessionPart(i2));
    CancelPrefix(",", SessionPart(i1), SessionPart(i2));
    SessionPartDecodes(i1, i2);
  }

  /** What a client signs names one hello, and what a server signs names one whole exchange. */
  lemma SignedTextsDecode(c1: ClientHello, s1: ServerHello, c2: ClientHello, s2: ServerHello)
    requires QuotableClient(c1) && QuotableClient(c2) && QuotableServer(s1) && QuotableServer(s2)
    ensures ClientSigned(c1) == ClientSigned(c2) ==> c1 == c2
    ensures ServerSigned(c1, s1) == ServerSigned(c2, s2) ==> c1 == c2 && s1 == s2
    ensures Transcript(c1, s1) == Transcript(c2, s2) ==> c1 == c2 && s1 == s2
  {
    if ClientSigned(c1) == ClientSigned(c2) {
      var role := "\"role\":\"client\",";
      ClientPartDecodes(c1, role + SessionPart(c1.sessionId), c2, role + SessionPart(c2.sessionId));
      CancelPrefix(role, SessionPart(c1.sessionId), SessionPart(c2.sessionId));
      SessionPartDecodes(c1.sessionId, c2.sessionId);
    }
    if ServerSigned(c1, s1) == ServerSigned(c2, s2) {
      var role := "\"role\":\"server\",";
      ClientPartDecodes(c1, role + ServerPart(s1, c1.sessionId), c2, role + ServerPart(s2, c2.sessionId));
      CancelPrefix(role, ServerPart(s1, c1.sessionId), ServerPart(s2, c2.sessionId));
      ServerPartDecodes(s1, c1.sessionId, s2, c2.sessionId);
    }
    if Transcript(c1, s1) == Transcript(c2, s2) {
      ClientPartDecodes(c1, ServerPart(s1, c1.sessionId), c2, ServerPart(s2, c2.sessionId));
      ServerPartDecodes(s1, c1.sessionId, s2, c2.sessionId);
    }
  }

  /** No signature made in one role can be presented in the other, nor as an unsigned text. */
  lemma RolesAreDisjoint(c1: ClientHello, c2: ClientHello, s: ServerHello)
    requires QuotableClient(c1) && QuotableClient(c2)
    ensures ClientSigned(c1) != ServerSigned(c2, s)
    ensures ClientSigned(c1) != ClientUnsigned(c2) && ClientSigned(c1) != Transcript(c2, s)
    ensures ServerSigned(c1, s) != ClientUnsigned(c2) && ServerSigned(c1, s) != Transcript(c2, s)
  {
    var client := "\"role\":\"client\"," + SessionPart(c1.sessionId);
    var server1, server2 := "\"role\":\"server\"," + ServerPart(s, c1.sessionId), "\"role\":\"server\"," + ServerPart(s, c2.sessionId);
    var plain, transcript := SessionPart(c2.sessionId), ServerPart(s, c2.sessionId);
    assert client[8] == 'c' && server2[8] == 's';
    assert client[1] == 'r' && server1[1] == 'r' && plain[1] == 's' && transcript[1] == 's';
    if ClientSigned(c1) == ServerSigned(c2, s) {
      ClientPartDecodes(c1, client, c2, server2);
    }
    if ClientSigned(c1) == ClientUnsigned(c2) {
      ClientPartDecodes(c1, client, c2, plain);
    }
    if ClientSigned(c1) == Transcript(c2, s) {
      ClientPartDecodes(c1, client, c2, transcript);
    }
    if ServerSigned(c1, s) == ClientUnsigned(c2) {
      ClientPartDecodes(c1, server1, c2, plain);
    }
    if ServerSigned(c1, s) == Transcript(c2, s) {
      ClientPartDecodes(c1, server1, c2, transcript);
    }
  }

  // ----- Nonce -----

  function Pow256(k: nat): (r: nat)
    ensures r >= 1
  {
    if k == 0 then 1 else 256 * Pow256(k - 1)
  }

  /** Most significant byte first. */
  function BigEndian(n: nat, width: nat): (r: bytes)
    ensures |r| == width
  {
    if width == 0 then [] else BigEndian(n / 256, width - 1) + [n % 256]
  }

  lemma {:induction false} BigEndianInjective(a: nat, b: nat, width: nat)
    requires a < Pow256(width) && b < Pow256(width) && BigEndian(a, width) == BigEndian(b, width)
    ensures a == b
  {
    if width > 0 {
      var x, y := BigEndian(a, width), BigEndian(b, width);
      assert x[..width - 1] == BigEndian(a / 256, width - 1) && y[..width - 1] == BigEndian(b / 256, width - 1);
      assert x[width - 1] == a % 256 && y[width - 1] == b % 256;
      BigEndianInjective(a / 256, b / 256, width - 1);
    }
  }

  const MAX_SEQUENCE := 0xFFFF_FFFF_FFFF_FFFF

  function Nonce(prefix: bytes, sequence: nat): bytes {
    prefix + BigEndian(sequence, 8)
  }

  function ValueOf(b: bytes): nat {
    if b == [] then 0 else ValueOf(b[..|b| - 1]) * 256 + b[|b| - 1]
  }

  /** The last eight bytes of a nonce are the sequence number, most significant byte first. */
  lemma NonceValue(prefix: bytes, sequence: nat)
    requires sequence <= MAX_SEQUENCE
    ensures |Nonce(prefix, sequence)| == |prefix| + 8 && prefix <= Nonce(prefix, sequence)
    ensures ValueOf(Nonce(prefix, sequence)[|prefix|..]) == sequence
  {
    assert Pow256(8) == 256 * (256 * (256 * (256 * Pow256(4)))) && Pow256(4) == 0x1_0000_0000;
    assert Nonce(prefix, sequence)[|prefix|..] == BigEndian(sequence, 8);
    BigEndianValue(sequence, 8);
  }

  lemma {:induction false} BigEndianValue(n: nat, width: nat)
    requires n < Pow256(width)
    ensures ValueOf(BigEndian(n, width)) == n
  {
    if width > 0 {
      assert BigEndian(n, width)[..width - 1] == BigEndian(n / 256, width - 1);
      BigEndianValue(n / 256, width - 1);
    }
  }

  /** No two of the 2^64 sequence numbers share a nonce. */
  lemma NonceInjective(prefix: bytes, a: nat, b: nat)
    requires a <= MAX_SEQUENCE && b <= MAX_SEQUENCE && Nonce(prefix, a) == Nonce(prefix, b)
    ensures a == b
  {
    assert Pow256(8) == 256 * (256 * (256 * (256 * Pow256(4)))) && Pow256(4) == 0x1_0000_0000;
    assert BigEndian(a, 8) == Nonce(prefix, a)[|prefix|..] && BigEndian(b, 8) == Nonce(prefix, b)[|prefix|..];
    BigEndianInjective(a, b, 8);
  }

  /** `n >> (8 * k)`. */
  function ShiftedRight(n: nat, k: nat): nat {
    if k == 0 then n else ShiftedRight(n / 256, k - 1)
  }

  lemma {:induction false} BigEndianByte(n: nat, width: nat, index: nat)
    requires index < width
    ensures BigEndian(n, width)[width - 1 - index] == ShiftedRight(n, index) % 256
  {
    if index > 0 {
      BigEndianByte(n / 256, width - 1, index - 1);
    }
  }

  /** `buildNonce`: the prefix, then the sequence written byte by byte from the end. */
  method BuildNonce(nonce: array<byte>, prefix: bytes, sequence: nat)
    requires nonce.Length == 12 && |prefix| == 4 && sequence <= MAX_SEQUENCE
    modifies nonce
    ensures nonce[..] == Nonce(prefix, sequence)
  {
    for index := 0 to 4
      invariant forall k :: 0 <= k < index ==> nonce[k] == prefix[k]
    {
      nonce[index] := prefix[index];
    }
    ghost var tail := BigEndian(sequence, 8);
    for index := 0 to 8
      invariant forall k :: 0 <= k < 4 ==> nonce[k] == prefix[k]
      invariant forall k :: 12 - index <= k < 12 ==> nonce[k] == tail[k - 4]
    {
      BigEndianByte(sequence, 8, index);
      nonce[11 - index] := ShiftedRight(sequence, index) % 256;
    }
    assert nonce[..] == prefix + tail;
  }
}

/**
 * The v2 record layer (windows-agent/secure_session.py, firmware/src/pipa_secure_session.cpp).
 *
 * The AEAD is symbolic: a ciphertext either is what one `Sealed` call produced, and opens under
 * exactly the same key, nonce and associated data, or it was made without the key and never opens.
 */
module RecordLayer {
  import opened Prelude
  import opened Framing

  const SECURE_PROTOCOL_VERSION := 2
  const MAX_RECORD_BYTES := 65536
  const MAX_ADDITIONAL_DATA_BYTES := 1024
  const TAG_BYTES := 16

  // ----- Symbolic AEAD -----

  type Key(==, !new) = int

  datatype Ciphertext =
    | Sealed(key: Key, nonce: bytes, payload: bytes, data: Octets)
    | Forged(length: nat)

  function Length(c: Ciphertext): nat {
    if c.Sealed? then |c.payload| + TAG_BYTES else c.length
  }

  function Decrypt(key: Key, nonce: bytes, c: Ciphertext, data: Octets): Option<bytes> {
    if c.Sealed? && c.key == key && c.nonce == nonce && c.data == data then Some(c.payload) else None
  }

  // ----- One end -----

  /** A received frame; a field that is missing or of the wrong type is `None`. */
  datatype Frame = Frame(version: Option<int>, sessionId: Option<string>, sequence: Option<int>, ciphertext: Option<Ciphertext>)

  datatype RecordError =
    | Closed | PayloadTooLarge | DataTooLarge | Exhausted | WrongSession | BadSequence | NotNext | NotBase64 | FrameTooLarge
    | NotAuthentic

  /** `sequences` is how many sequence numbers the implementation uses in each direction. */
  datatype End = End(
    sessionId: string,
    sequences: nat,
    sendKey: Key,
    receiveKey: Key,
    sendPrefix: bytes,
    receivePrefix: bytes,
    sendSequence: nat,
    receiveSequence: nat,
    closed: bool)

  /** The Python record layer uses all 64-bit sequence numbers, the firmware all but the last. */
  const PYTHON_SEQUENCES: nat := MAX_SEQUENCE + 1
  const FIRMWARE_SEQUENCES: nat := MAX_SEQUENCE

  function SealedUnder(end: End, sequence: nat, payload: bytes, data: Octets): Ciphertext {
    Sealed(end.sendKey, Nonce(end.sendPrefix, sequence), payload, Header(end.sessionId, sequence) + data)
  }

  function FrameFor(end: End, sequence: nat, c: Ciphertext): Frame {
    Frame(Some(SECURE_PROTOCOL_VERSION), Some(end.sessionId), Some(sequence), Some(c))
  }

  function SealIn(end: End, payload: bytes, data: Octets): (End, Result<Frame, RecordError>) {
    if end.closed then (end, Failure(Closed))
    else if |payload| > MAX_RECORD_BYTES then (end, Failure(PayloadTooLarge))
    else if |data| > MAX_ADDITIONAL_DATA_BYTES then (end, Failure(DataTooLarge))
    else if end.sendSequence >= end.sequences then (end, Failure(Exhausted))
    else
      var c := SealedUnder(end, end.sendSequence, payload, data);
      (end.(sendSequence := end.sendSequence + 1), Success(FrameFor(end, end.sendSequence, c)))
  }

  function OpenIn(end: End, frame: Frame, data: Octets): (End, Result<bytes, RecordError>) {
    if end.closed then (end, Failure(Closed))
    else if frame.version != Some(SECURE_PROTOCOL_VERSION) || frame.sessionId != Some(end.sessionId) then
      (end, Failure(WrongSession))
    else if frame.sequence.None? || !(0 <= frame.sequence.value < end.sequences) then (end, Failure(BadSequence))
    else if frame.sequence.value != end.receiveSequence then (end, Failure(NotNext))
    else if frame.ciphertext.None? then (end, Failure(NotBase64))
    else if Length(frame.ciphertext.value) > MAX_RECORD_BYTES + TAG_BYTES then (end, Failure(FrameTooLarge))
    else if |data| > MAX_ADDITIONAL_DATA_BYTES then (end, Failure(DataTooLarge))
    else
      var payload := Decrypt(end.receiveKey, Nonce(end.receivePrefix, end.receiveSequence), frame.ciphertext.value,
                             Header(end.sessionId, end.receiveSequence) + data);
      if payload.None? then (end, Failure(NotAuthentic))
      else if |payload.value| > MAX_RECORD_BYTES then (end, Failure(PayloadTooLarge))
      else (end.(receiveSequence := end.receiveSequence + 1), Success(payload.value))
  }

  // ----- Directional keys -----

  datatype Role = Client | Server

  /** What the key derivation yields for one handshake. */
  datatype Material = Material(clientKey: Key, serverKey: Key, clientPrefix: bytes, serverPrefix: bytes)

  function FromMaterial(sessionId: string, m: Material, role: Role, sequences: nat): End {
    match role
    case Client => End(sessionId, sequences, m.clientKey, m.serverKey, m.clientPrefix, m.serverPrefix, 0, 0, false)
    case Server => End(sessionId, sequences, m.serverKey, m.clientKey, m.serverPrefix, m.clientPrefix, 0, 0, false)
  }

  /** `SecureSession`. */
  class SecureSession {
    const sessionId: string
    const sendKey: Key
    const receiveKey: Key
    const sendPrefix: bytes
    const receivePrefix: bytes
    var sendSequence: nat
    var receiveSequence: nat
    var closed: bool

    ghost function View(): End
      reads this
    {
      End(sessionId, PYTHON_SEQUENCES, sendKey, receiveKey, sendPrefix, receivePrefix, sendSequence, receiveSequence, closed)
    }

    constructor (sessionId: string, sendKey: Key, receiveKey: Key, sendPrefix: bytes, receivePrefix: bytes)
      ensures View() == End(sessionId, PYTHON_SEQUENCES, sendKey, receiveKey, sendPrefix, receivePrefix, 0, 0, false)
    {
      this.sessionId := sessionId;
      this.sendKey := sendKey;
      this.receiveKey := receiveKey;
      this.sendPrefix := sendPrefix;
      this.receivePrefix := receivePrefix;
      this.sendSequence := 0;
      this.receiveSequence := 0;
      this.closed := false;
    }

    /** `secure_session_from_shared_secret`, after the key derivation. */
    static method FromSharedSecret(sessionId: string, m: Material, role: Role) returns (session: SecureSession)
      ensures fresh(session) && session.View() == FromMaterial(sessionId, m, role, PYTHON_SEQUENCES)
      ensures session.sendKey == (if role == Client then m.clientKey else m.serverKey)
      ensures session.receivePrefix == (if role == Client then m.serverPrefix else m.clientPrefix)
    {
      if role == Client {
        session := new SecureSession(sessionId, m.clientKey, m.serverKey, m.clientPrefix, m.serverPrefix);
      } else {
        session := new SecureSession(sessionId, m.serverKey, m.clientKey, m.serverPrefix, m.clientPrefix);
      }
    }

    method Seal(payload: bytes, data: Octets) returns (r: Result<Frame, RecordError>)
      modifies this`sendSequence
      ensures (View(), r) == SealIn(old(View()), payload, data)
    {
      if closed {
        return Failure(Closed);
      }
      if |payload| > MAX_RECORD_BYTES {
        return Failure(PayloadTooLarge);
      }
      if |data| > MAX_ADDITIONAL_DATA_BYTES {
        return Failure(DataTooLarge);
      }
      var sequence := sendSequence;
      if sequence > MAX_SEQUENCE {
        return Failure(Exhausted);
      }
      var ciphertext := Sealed(sendKey, Nonce(sendPrefix, sequence), payload, Header(sessionId, sequence) + data);
      sendSequence := sendSequence + 1;
      r := Success(Frame(Some(SECURE_PROTOCOL_VERSION), Some(sessionId), Some(sequence), Some(ciphertext)));
    }

    method Open(frame: Frame, data: Octets) returns (r: Result<bytes, RecordError>)
      modifies this`receiveSequence
      ensures (View(), r) == OpenIn(old(View()), frame, data)
    {
      if closed {
        return Failure(Closed);
      }
      if frame.version != Some(SECURE_PROTOCOL_VERSION) || frame.sessionId != Some(sessionId) {
        return Failure(WrongSession);
      }
      if frame.sequence.None? || !(0 <= frame.sequence.value <= MAX_SEQUENCE) {
        return Failure(BadSequence);
      }
      var sequence := frame.sequence.value;
      if sequence != receiveSequence {
        return Failure(NotNext);
      }
      if frame.ciphertext.None? {
        return Failure(NotBase64);
      }
      if Length(frame.ciphertext.value) > MAX_RECORD_BYTES + TAG_BYTES {
        return Failure(FrameTooLarge);
      }
      if |data| > MAX_ADDITIONAL_DATA_BYTES {
        return Failure(DataTooLarge);
      }
      var payload := Decrypt(receiveKey, Nonce(receivePrefix, sequence), frame.ciphertext.value,
                             Header(sessionId, sequence) + data);
      if payload.None? {
        return Failure(NotAuthentic);
      }
      if |payload.value| > MAX_RECORD_BYTES {
        return Failure(PayloadTooLarge);
      }
      receiveSequence := receiveSequence + 1;
      r := Success(payload.value);
    }

    method Close()
      modifies this`closed
      ensures View() == old(View()).(closed := true)
    {
      closed := true;
    }
  }

  /** The firmware's `PipaSecureSession`, with its 64-bit counters and buffer capacities. */
  class PipaSecureSession {
    var sessionId: string
    var sendKey: Key
    var receiveKey: Key
    var sendPrefix: bytes
    var receivePrefix: bytes
    var sendSequence: nat
    var receiveSequence: nat
    var ready: bool

    ghost function View(): End
      reads this
    {
      End(sessionId, FIRMWARE_SEQUENCES, sendKey, receiveKey, sendPrefix, receivePrefix, sendSequence, receiveSequence, !ready)
    }

    ghost predicate Valid()
      reads this
    {
      sendSequence <= MAX_SEQUENCE && receiveSequence <= MAX_SEQUENCE
    }

    constructor ()
      ensures Valid() && View().closed
    {
      sessionId, sendKey, receiveKey, sendPrefix, receivePrefix := "", 0, 0, [], [];
      sendSequence, receiveSequence, ready := 0, 0, false;
    }

    /** Whatever the outcome, nothing of an earlier session survives. */
    method BeginFromSharedSecret(sessionId: string, m: Material, secretIsZero: bool, clientRole: bool) returns (ok: bool)
      modifies this
      ensures Valid()
      ensures ok <==> Identifier(sessionId, 128) && !secretIsZero
      ensures ok ==> View() == FromMaterial(sessionId, m, if clientRole then Client else Server, FIRMWARE_SEQUENCES)
      ensures !ok ==> View().closed
    {
      Clear();
      if !Identifier(sessionId, 128) || secretIsZero {
        return false;
      }
      this.sessionId := sessionId;
      sendKey, receiveKey := if clientRole then m.clientKey else m.serverKey, if clientRole then m.serverKey else m.clientKey;
      sendPrefix := if clientRole then m.clientPrefix else m.serverPrefix;
      receivePrefix := if clientRole then m.serverPrefix else m.clientPrefix;
      sendSequence, receiveSequence := 0, 0;
      ready := true;
      ok := true;
    }

    /** The caller puts `sessionId` and the sequence it read before the call on the frame. */
    method Seal(payload: bytes, data: Octets, capacity: nat) returns (c: Option<Ciphertext>)
      requires Valid()
      modifies this`sendSequence
      ensures Valid()
      ensures capacity < |payload| + TAG_BYTES ==> c.None? && View() == old(View())
      ensures capacity >= |payload| + TAG_BYTES ==>
                var (after, r) := SealIn(old(View()), payload, data);
                View() == after && c == if r.Success? then r.value.ciphertext else None
    {
      hide Header, Nonce;
      if !ready || |payload| > MAX_RECORD_BYTES || |data| > MAX_ADDITIONAL_DATA_BYTES ||
         capacity < |payload| + TAG_BYTES || sendSequence == MAX_SEQUENCE
      {
        return None;
      }
      c := Some(Sealed(sendKey, Nonce(sendPrefix, sendSequence), payload, Header(sessionId, sendSequence) + data));
      sendSequence := (sendSequence + 1) % (MAX_SEQUENCE + 1);
    }

    /** The caller has matched the frame's version and session before the call. */
    method Open(sequence: nat, c: Ciphertext, data: Octets, capacity: nat) returns (payload: Option<bytes>)
      requires Valid() && sequence <= MAX_SEQUENCE
      modifies this`receiveSequence
      ensures Valid()
      ensures Length(c) < TAG_BYTES || capacity < Length(c) - TAG_BYTES ==> payload.None? && View() == old(View())
      ensures Length(c) >= TAG_BYTES && capacity >= Length(c) - TAG_BYTES ==>
                var (after, r) := OpenIn(old(View()), FrameFor(old(View()), sequence, c), data);
                View() == after && payload == if r.Success? then Some(r.value) else None
    {
      hide Header, Nonce;
      if !ready || Length(c) < TAG_BYTES || Length(c) > MAX_RECORD_BYTES + TAG_BYTES || |data| > MAX_ADDITIONAL_DATA_BYTES ||
         capacity < Length(c) - TAG_BYTES || sequence != receiveSequence || sequence == MAX_SEQUENCE
      {
        return None;
      }
      payload := Decrypt(receiveKey, Nonce(receivePrefix, sequence), c, Header(sessionId, sequence) + data);
      if payload.None? {
        return;
      }
      receiveSequence := (receiveSequence + 1) % (MAX_SEQUENCE + 1);
    }

    method Clear()
      modifies this
      ensures Valid() && View() == End("", FIRMWARE_SEQUENCES, 0, 0, [], [], 0, 0, true)
    {
      sessionId, sendKey, receiveKey, sendPrefix, receivePrefix := "", 0, 0, [], [];
      sendSequence, receiveSequence, ready := 0, 0, false;
    }
  }

  // ----- Two ends and an arbitrary network -----

  datatype Record = Record(payload: bytes, data: Octets)

  /** An end with everything it sealed and opened, and every ciphertext it put on the wire. */
  datatype Party = Party(end: End, sent: seq<Record>, received: seq<Record>, wire: seq<Ciphertext>)

  datatype World = World(client: Party, server: Party)

  function At(w: World, role: Role): Party {
    if role == Client then w.client else w.server
  }

  function With(w: World, role: Role, party: Party): World {
    if role == Client then w.(client := party) else w.(server := party)
  }

  function Peer(role: Role): Role {
    if role == Client then Server else Client
  }

  datatype Action =
    | Seal(role: Role, payload: bytes, data: Octets)
    | Deliver(role: Role, frame: Frame, data: Octets)
    | Close(role: Role)

  function SealStep(p: Party, payload: bytes, data: Octets): Party {
    var (end, r) := SealIn(p.end, payload, data);
    if r.Success? then Party(end, p.sent + [Record(payload, data)], p.received, p.wire + [r.value.ciphertext.value])
    else p.(end := end)
  }

  function OpenStep(p: Party, frame: Frame, data: Octets): Party {
    var (end, r) := OpenIn(p.end, frame, data);
    if r.Success? then p.(end := end, received := p.received + [Record(r.value, data)]) else p.(end := end)
  }

  /**
   * The network drops, duplicates, reorders, reflects and invents frames. All it cannot do is
   * make a ciphertext under a session key that neither end made.
   */
  predicate CanDeliver(w: World, frame: Frame) {
    var c := frame.ciphertext;
    c.Some? && c.value.Sealed? && (c.value.key == w.client.end.sendKey || c.value.key == w.server.end.sendKey) ==>
      c.value in w.client.wire || c.value in w.server.wire
  }

  predicate Enabled(w: World, a: Action) {
    a.Deliver? ==> CanDeliver(w, a.frame)
  }

  function Next(w: World, a: Action): World {
    var p := At(w, a.role);
    match a
    case Seal(role, payload, data) => With(w, role, SealStep(p, payload, data))
    case Deliver(role, frame, data) => With(w, role, OpenStep(p, frame, data))
    case Close(role) => With(w, role, p.(end := p.end.(closed := true)))
  }

  /** Both ends of one completed handshake; the derivation gives the directions different keys. */
  predicate Init(w: World, sessionId: string, m: Material, clientSequences: nat, serverSequences: nat) {
    && Identifier(sessionId, 128) && m.clientKey != m.serverKey
    && clientSequences <= PYTHON_SEQUENCES && serverSequences <= PYTHON_SEQUENCES
    && w.client == Party(FromMaterial(sessionId, m, Client, clientSequences), [], [], [])
    && w.server == Party(FromMaterial(sessionId, m, Server, serverSequences), [], [], [])
  }

  ghost predicate Behaviour(worlds: seq<World>, actions: seq<Action>) {
    && |worlds| == |actions| + 1
    && (exists id, m, c, s :: Init(worlds[0], id, m, c, s))
    && forall i :: 0 <= i < |actions| ==> Enabled(worlds[i], actions[i]) && worlds[i + 1] == Next(worlds[i], actions[i])
  }

  // ----- The invariant, one direction at a time -----

  predicate Bounded(r: Record) {
    |r.payload| <= MAX_RECORD_BYTES && |r.data| <= MAX_ADDITIONAL_DATA_BYTES
  }

  predicate SenderInv(p: Party) {
    && p.end.sequences <= PYTHON_SEQUENCES && Quotable(p.end.sessionId)
    && |p.sent| == |p.wire| == p.end.sendSequence <= p.end.sequences
    && (forall r :: r in p.sent ==> Bounded(r))
    && forall k :: 0 <= k < |p.wire| ==> p.wire[k] == SealedUnder(p.end, k, p.sent[k].payload, p.sent[k].data)
  }

  /** `a` sends and `b` receives. */
  predicate Linked(a: Party, b: Party) {
    && a.end.sessionId == b.end.sessionId && a.end.sendKey == b.end.receiveKey && a.end.sendPrefix == b.end.receivePrefix
    && a.end.sendKey != b.end.sendKey
    && b.end.receiveSequence == |b.received| && b.received <= a.sent
  }

  predicate Inv(w: World) {
    SenderInv(w.client) && SenderInv(w.server) && Linked(w.client, w.server) && Linked(w.server, w.client)
  }

  /** The one frame that `b` can open next: `a`'s frame of that number, whole and with its data. */
  predicate IsNextFrame(a: Party, b: Party, frame: Frame, data: Octets)
    requires |a.sent| == |a.wire|
  {
    var n := |b.received|;
    && !b.end.closed && n < |a.sent| && n < b.end.sequences
    && frame == FrameFor(a.end, n, a.wire[n]) && data == a.sent[n].data
  }

  /** Whatever the network delivers, exactly the next frame opens, and it opens to what was sealed. */
  lemma OpensExactlyTheNext(w: World, role: Role, frame: Frame, data: Octets)
    requires Inv(w) && CanDeliver(w, frame)
    ensures var a, b := At(w, Peer(role)), At(w, role);
            var r := OpenIn(b.end, frame, data).1;
            && (r.Success? <==> IsNextFrame(a, b, frame, data))
            && (r.Success? ==> Record(r.value, data) == a.sent[|b.received|])
  {
    var a, b := At(w, Peer(role)), At(w, role);
    if OpenIn(b.end, frame, data).1.Success? {
      OnlyTheNextOpens(a, b, frame, data);
    }
    if IsNextFrame(a, b, frame, data) {
      assert Bounded(a.sent[|b.received|]);
    }
  }

  lemma OnlyTheNextOpens(a: Party, b: Party, frame: Frame, data: Octets)
    requires SenderInv(a) && SenderInv(b) && Linked(a, b) && OpenIn(b.end, frame, data).1.Success?
    requires frame.ciphertext.value in a.wire || frame.ciphertext.value in b.wire
    ensures IsNextFrame(a, b, frame, data) && Record(OpenIn(b.end, frame, data).1.value, data) == a.sent[|b.received|]
  {
    hide Header, Nonce;
    var n := |b.received|;
    var k :| 0 <= k < |a.wire| && a.wire[k] == frame.ciphertext.value;
    assert Header(a.end.sessionId, n) + data == Header(a.end.sessionId, k) + a.sent[k].data;
    HeaderDecodes(a.end.sessionId, n, data, a.end.sessionId, k, a.sent[k].data);
  }

  /**
   * Sealing succeeds exactly on an open end, for a payload of at most 65536 and data of at most 1024 bytes, while a
   * sequence number is left. The frame carries the next number, and the other end opens it, if it is open and has opened
   * everything before it.
   */
  lemma SealsExactly(worlds: seq<World>, actions: seq<Action>, i: nat, role: Role, payload: bytes, data: Octets)
    requires Behaviour(worlds, actions) && i < |worlds|
    ensures var p, q := At(worlds[i], role), At(worlds[i], Peer(role));
            var (after, r) := SealIn(p.end, payload, data);
            && (r.Success? <==>
                  !p.end.closed && |payload| <= 65536 && |data| <= 1024 && |p.sent| < p.end.sequences)
            && (r.Success? ==>
                  && r.value.version == Some(2) && r.value.sessionId == Some(p.end.sessionId) && r.value.sequence == Some(|p.sent|)
                  && after == p.end.(sendSequence := |p.sent| + 1))
            && (r.Success? && !q.end.closed && |q.received| == |p.sent| < q.end.sequences ==>
                  OpenIn(q.end, r.value, data) == (q.end.(receiveSequence := |p.sent| + 1), Success(payload)))
  {
    hide Header, Nonce;
    BehaviourKeepsInv(worlds, actions, i);
  }

  lemma SealKeeps(a: Party, b: Party, payload: bytes, data: Octets)
    requires SenderInv(b) && Linked(a, b) && Linked(b, a)
    ensures var after := SealStep(b, payload, data); SenderInv(after) && Linked(a, after) && Linked(after, a)
  {
    hide Header, Nonce;
  }

  lemma OpenKeeps(w: World, role: Role, frame: Frame, data: Octets)
    requires Inv(w) && CanDeliver(w, frame)
    ensures var a, b := At(w, Peer(role)), OpenStep(At(w, role), frame, data);
            SenderInv(b) && Linked(a, b) && Linked(b, a)
  {
    hide Header, Nonce, CanDeliver;
    OpensExactlyTheNext(w, role, frame, data);
  }

  lemma CloseKeeps(p: Party)
    requires SenderInv(p)
    ensures SenderInv(p.(end := p.end.(closed := true)))
  {
  }

  lemma StepKeepsInv(w: World, a: Action)
    requires Inv(w) && Enabled(w, a)
    ensures Inv(Next(w, a))
  {
    hide SealStep, OpenStep, CanDeliver, SealedUnder;
    match a
    case Seal(role, payload, data) => SealKeeps(At(w, Peer(role)), At(w, role), payload, data);
    case Deliver(role, frame, data) => OpenKeeps(w, role, frame, data);
    case Close(role) => CloseKeeps(At(w, role));
  }

  lemma {:induction false} BehaviourKeepsInv(worlds: seq<World>, actions: seq<Action>, i: nat)
    requires Behaviour(worlds, actions) && i < |worlds|
    ensures Inv(worlds[i])
  {
    if i > 0 {
      BehaviourKeepsInv(worlds, actions, i - 1);
      StepKeepsInv(worlds[i - 1], actions[i - 1]);
    }
  }

  // ----- Over every run -----

  /** What one side has opened, payloads and data, is a prefix of what the other side sealed. */
  lemma OpenedIsPrefixOfSealed(worlds: seq<World>, actions: seq<Action>, i: nat, role: Role)
    requires Behaviour(worlds, actions) && i < |worlds|
    ensures At(worlds[i], role).received <= At(worlds[i], Peer(role)).sent
  {
    BehaviourKeepsInv(worlds, actions, i);
  }

  /** No two ciphertexts of a run, of either side, were made under the same key and nonce. */
  lemma NoNonceIsReused(worlds: seq<World>, actions: seq<Action>, i: nat, r1: Role, k1: nat, r2: Role, k2: nat)
    requires Behaviour(worlds, actions) && i < |worlds|
    requires k1 < |At(worlds[i], r1).wire| && k2 < |At(worlds[i], r2).wire|
    ensures var a, b := At(worlds[i], r1).wire[k1], At(worlds[i], r2).wire[k2];
            a.Sealed? && b.Sealed? && (a.key == b.key && a.nonce == b.nonce ==> r1 == r2 && k1 == k2)
  {
    hide Header, Nonce;
    BehaviourKeepsInv(worlds, actions, i);
    var p, q := At(worlds[i], r1), At(worlds[i], r2);
    if r1 == r2 && p.wire[k1].nonce == p.wire[k2].nonce {
      NonceInjective(p.end.sendPrefix, k1, k2);
    }
  }

  ghost predicate OpensAt(worlds: seq<World>, actions: seq<Action>, i: nat, c: Ciphertext) {
    && |worlds| == |actions| + 1 && i < |actions|
    && actions[i].Deliver? && actions[i].frame.ciphertext == Some(c)
    && OpenIn(At(worlds[i], actions[i].role).end, actions[i].frame, actions[i].data).1.Success?
  }

  /** A ciphertext opens at most once in a run, whichever side it is delivered to. */
  lemma NothingOpensTwice(worlds: seq<World>, actions: seq<Action>, i: nat, j: nat, c: Ciphertext)
    requires Behaviour(worlds, actions) && OpensAt(worlds, actions, i, c) && OpensAt(worlds, actions, j, c)
    ensures i == j
  {
    if i < j {
      LaterDiffers(worlds, actions, i, j, c);
    } else if j < i {
      LaterDiffers(worlds, actions, j, i, c);
    }
  }

  lemma LaterDiffers(worlds: seq<World>, actions: seq<Action>, i: nat, j: nat, c: Ciphertext)
    requires Behaviour(worlds, actions) && i < j && OpensAt(worlds, actions, i, c)
    ensures !OpensAt(worlds, actions, j, c)
  {
    if OpensAt(worlds, actions, j, c) {
      var a, b := actions[i], actions[j];
      var n, m := |At(worlds[i], a.role).received|, |At(worlds[j], b.role).received|;
      OpenedFromWire(worlds, actions, i, c);
      OpenedFromWire(worlds, actions, j, c);
      OnlyGrows(worlds, actions, i + 1, j);
      NoNonceIsReused(worlds, actions, j, Peer(a.role), n, Peer(b.role), m);
    }
  }

  /** The ciphertext opened is the peer's next one, and opening it uses its number up. */
  lemma OpenedFromWire(worlds: seq<World>, actions: seq<Action>, i: nat, c: Ciphertext)
    requires Behaviour(worlds, actions) && OpensAt(worlds, actions, i, c)
    ensures var role := actions[i].role;
            var n := |At(worlds[i], role).received|;
            && n < |At(worlds[i], Peer(role)).wire| && At(worlds[i], Peer(role)).wire[n] == c
            && |At(worlds[i + 1], role).received| == n + 1
            && At(worlds[i + 1], Peer(role)) == At(worlds[i], Peer(role))
  {
    hide OpenIn, CanDeliver;
    BehaviourKeepsInv(worlds, actions, i);
    OpensExactlyTheNext(worlds[i], actions[i].role, actions[i].frame, actions[i].data);
  }

  /** Logs and wire of a later world extend those of an earlier one. */
  predicate Extends(after: Party, before: Party) {
    before.received <= after.received && before.sent <= after.sent && before.wire <= after.wire
  }

  lemma StepExtends(w: World, a: Action)
    ensures Extends(Next(w, a).client, w.client) && Extends(Next(w, a).server, w.server)
  {
    hide SealIn, OpenIn;
  }

  lemma {:induction false} OnlyGrows(worlds: seq<World>, actions: seq<Action>, i: nat, j: nat)
    requires Behaviour(worlds, actions) && i <= j < |worlds|
    ensures Extends(worlds[j].client, worlds[i].client) && Extends(worlds[j].server, worlds[i].server)
  {
    hide Next;
    if i < j {
      OnlyGrows(worlds, actions, i, j - 1);
      StepExtends(worlds[j - 1], actions[j - 1]);
    }
  }
}

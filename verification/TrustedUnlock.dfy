/**
 * One-time challenges and tickets (windows-agent/trusted_unlock_protocol.py, windows-agent/trusted_unlock_ticket.py).
 *
 * Clock readings are arbitrary: nothing here assumes that time moves forward. A signature is symbolic: it names
 * the key that made it and the challenge it covers. Insertion-ordered dictionaries are sequences.
 */
module TrustedUnlock {
  import opened Prelude

  const UNLOCK_OPERATION := "unlock"
  const MAX_TTL_SECONDS := 60
  const MAX_PENDING_CHALLENGES := 256
  const MAX_PENDING_PER_DEVICE := 8
  const MAX_CONSUMED_CHALLENGES := 4096
  const MAX_TICKET_TTL_SECONDS := 10
  const MAX_CONSUMED_TICKETS := 4096

  type Key = int

  datatype Challenge = Challenge(id: string, device: string, nonce: string, issuedAt: int, expiresAt: int, operation: string)

  datatype Signature = SignedBy(key: Key, challenge: Challenge) | NotASignature

  datatype Response = Response(challengeId: string, device: string, signature: Signature)

  datatype Authorization = Authorization(challengeId: string, device: string, operation: string, verifiedAt: int, expiresAt: int)

  datatype UnlockError =
    | BadValue | UnknownDevice | TooManyPending | Replayed | Expired | UnknownChallenge | Mismatch | InvalidResponse

  /** An entry of a consumed table. */
  datatype Mark = Mark(id: string, expiresAt: int)

  predicate Marked(consumed: seq<Mark>, id: string) {
    exists k :: 0 <= k < |consumed| && consumed[k].id == id
  }

  function Unexpired(consumed: seq<Mark>, now: int): (r: seq<Mark>)
    ensures |r| <= |consumed|
    ensures forall id :: Marked(r, id) ==> Marked(consumed, id)
  {
    if consumed == [] then []
    else
      var rest := Unexpired(consumed[1..], now);
      var r := if consumed[0].expiresAt <= now then rest else [consumed[0]] + rest;
      assert forall id :: Marked(consumed[1..], id) ==> Marked(consumed, id) by {
        forall id | Marked(consumed[1..], id)
          ensures Marked(consumed, id)
        {
          var k :| 0 <= k < |consumed| - 1 && consumed[1..][k].id == id;
          assert consumed[k + 1].id == id;
        }
      }
      assert forall id :: Marked(r, id) ==> Marked(consumed, id) by {
        forall id | Marked(r, id)
          ensures Marked(consumed, id)
        {
          var k :| 0 <= k < |r| && r[k].id == id;
          if r != rest && k > 0 {
            assert rest[k - 1].id == id;
          }
        }
      }
      r
  }

  /** Evicts the oldest entry of a full table. */
  function WithMark(consumed: seq<Mark>, limit: nat, mark: Mark): seq<Mark> {
    (if |consumed| >= limit && consumed != [] then consumed[1..] else consumed) + [mark]
  }

  predicate IsIdentifier(s: string) {
    1 <= |s| <= 128 &&
    forall c :: c in s ==> 'a' <= c <= 'z' || 'A' <= c <= 'Z' || '0' <= c <= '9' || c == '_' || c == '.' || c == ':' || c == '-'
  }

  // ----- Challenges -----

  datatype Verifier = Verifier(trusted: map<string, Key>, pending: map<string, Challenge>, consumed: seq<Mark>, skew: nat)

  function PrunedVerifier(s: Verifier, now: int): Verifier {
    s.(pending := map id | id in s.pending && s.pending[id].expiresAt > now :: s.pending[id],
       consumed := Unexpired(s.consumed, now))
  }

  function PendingFor(pending: map<string, Challenge>, device: string): set<string> {
    set id | id in pending && pending[id].device == device
  }

  function CreateIn(s: Verifier, device: string, operation: string, ttl: int, id: string, nonce: string, now: int)
    : (Verifier, Result<Challenge, UnlockError>)
  {
    if !IsIdentifier(device) || !IsIdentifier(operation) || ttl < 1 || ttl > MAX_TTL_SECONDS then (s, Failure(BadValue))
    else
      var challenge := Challenge(id, device, nonce, now, now + ttl, operation);
      var live := PrunedVerifier(s, now);
      if device !in s.trusted then (live, Failure(UnknownDevice))
      else if |live.pending| >= MAX_PENDING_CHALLENGES || |PendingFor(live.pending, device)| >= MAX_PENDING_PER_DEVICE then
        (live, Failure(TooManyPending))
      else (live.(pending := live.pending[id := challenge]), Success(challenge))
  }

  function VerifyIn(s: Verifier, response: Response, now: int): (Verifier, Result<Authorization, UnlockError>) {
    var id := response.challengeId;
    if Marked(s.consumed, id) then (s, Failure(Replayed))
    else if id in s.pending && now >= s.pending[id].expiresAt then (PrunedVerifier(s, now), Failure(Expired))
    else
      var live := PrunedVerifier(s, now);
      if id !in s.pending then (live, Failure(UnknownChallenge))
      else
        var challenge := s.pending[id];
        if response.device != challenge.device then (live, Failure(Mismatch))
        else if now < challenge.issuedAt - s.skew then (live, Failure(Expired))
        else if challenge.device !in s.trusted then (live, Failure(UnknownDevice))
        else if response.signature != SignedBy(s.trusted[challenge.device], challenge) then (live, Failure(InvalidResponse))
        else
          (live.(pending := live.pending - {id},
                 consumed := WithMark(live.consumed, MAX_CONSUMED_CHALLENGES, Mark(id, challenge.expiresAt))),
           Success(Authorization(id, challenge.device, challenge.operation, now, challenge.expiresAt)))
  }

  class AuthorizationVerifier {
    var trusted: map<string, Key>
    var pending: map<string, Challenge>
    var consumed: seq<Mark>
    const clockSkewSeconds: nat

    ghost function View(): Verifier
      reads this
    {
      Verifier(trusted, pending, consumed, clockSkewSeconds)
    }

    /** Every challenge is filed under its own id. */
    ghost predicate Valid()
      reads this
    {
      forall id :: id in pending ==> pending[id].id == id
    }

    constructor (clockSkewSeconds: nat)
      ensures Valid() && View() == Verifier(map[], map[], [], clockSkewSeconds)
    {
      this.trusted, this.pending, this.consumed := map[], map[], [];
      this.clockSkewSeconds := clockSkewSeconds;
    }

    method RegisterDevice(device: string, key: Key) returns (ok: bool)
      requires Valid()
      modifies this`trusted
      ensures Valid() && ok == IsIdentifier(device)
      ensures View() == if ok then old(View()).(trusted := old(trusted)[device := key]) else old(View())
    {
      ok := IsIdentifier(device);
      if ok {
        trusted := trusted[device := key];
      }
    }

    method RevokeDevice(device: string)
      requires Valid()
      modifies this`trusted
      ensures Valid() && View() == old(View()).(trusted := old(trusted) - {device})
    {
      trusted := trusted - {device};
    }

    method Prune(now: int)
      requires Valid()
      modifies this`pending, this`consumed
      ensures Valid() && View() == PrunedVerifier(old(View()), now)
    {
      var expired := set id | id in pending && pending[id].expiresAt <= now;
      pending := pending - expired;
      consumed := Unexpired(consumed, now);
    }

    method CreateChallenge(device: string, operation: string, ttl: int, id: string, nonce: string, now: int)
      returns (r: Result<Challenge, UnlockError>)
      requires Valid()
      modifies this`pending, this`consumed
      ensures Valid() && (View(), r) == CreateIn(old(View()), device, operation, ttl, id, nonce, now)
    {
      if !IsIdentifier(device) || !IsIdentifier(operation) || ttl < 1 || ttl > MAX_TTL_SECONDS {
        return Failure(BadValue);
      }
      var challenge := Challenge(id, device, nonce, now, now + ttl, operation);
      Prune(now);
      if device !in trusted {
        return Failure(UnknownDevice);
      }
      var forDevice := set k | k in pending && pending[k].device == device;
      if |pending| >= MAX_PENDING_CHALLENGES || |forDevice| >= MAX_PENDING_PER_DEVICE {
        return Failure(TooManyPending);
      }
      pending := pending[id := challenge];
      r := Success(challenge);
    }

    method VerifyResponse(response: Response, now: int) returns (r: Result<Authorization, UnlockError>)
      requires Valid()
      modifies this`pending, this`consumed
      ensures Valid() && (View(), r) == VerifyIn(old(View()), response, now)
    {
      if Marked(consumed, response.challengeId) {
        return Failure(Replayed);
      }
      var found := if response.challengeId in pending then Some(pending[response.challengeId]) else None;
      if found.Some? && now >= found.value.expiresAt {
        pending := pending - {found.value.id};
        Prune(now);
        assert pending == PrunedVerifier(old(View()), now).pending;
        return Failure(Expired);
      }
      Prune(now);
      if found.None? {
        return Failure(UnknownChallenge);
      }
      var challenge := found.value;
      if response.device != challenge.device {
        return Failure(Mismatch);
      }
      if now < challenge.issuedAt - clockSkewSeconds {
        return Failure(Expired);
      }
      if challenge.device !in trusted {
        return Failure(UnknownDevice);
      }
      if response.signature != SignedBy(trusted[challenge.device], challenge) {
        return Failure(InvalidResponse);
      }
      pending := pending - {challenge.id};
      if |consumed| >= MAX_CONSUMED_CHALLENGES {
        consumed := consumed[1..];
      }
      consumed := consumed + [Mark(challenge.id, challenge.expiresAt)];
      r := Success(Authorization(challenge.id, challenge.device, challenge.operation, now, challenge.expiresAt));
    }
  }

  // ----- Tickets -----

  datatype Ticket = Ticket(token: string, device: string, operation: string, issuedAt: int, expiresAt: int)

  datatype TicketError = WrongOperation | BadTtl | TicketExpired | TicketReplayed | UnknownTicket

  datatype Issuer = Issuer(tickets: map<string, Ticket>, consumed: seq<Mark>)

  function PrunedIssuer(s: Issuer, now: int): Issuer {
    Issuer(map token | token in s.tickets && s.tickets[token].expiresAt > now :: s.tickets[token], Unexpired(s.consumed, now))
  }

  function Min(a: int, b: int): int {
    if a < b then a else b
  }

  function IssueIn(s: Issuer, authorization: Authorization, ttl: int, token: string, now: int)
    : (Issuer, Result<Ticket, TicketError>)
  {
    if authorization.operation != UNLOCK_OPERATION then (s, Failure(WrongOperation))
    else if ttl < 1 || ttl > MAX_TICKET_TTL_SECONDS then (s, Failure(BadTtl))
    else if now >= authorization.expiresAt then (s, Failure(TicketExpired))
    else
      var ticket := Ticket(token, authorization.device, authorization.operation, now, Min(now + ttl, authorization.expiresAt));
      var live := PrunedIssuer(s, now);
      (live.(tickets := live.tickets[token := ticket]), Success(ticket))
  }

  function ConsumeIn(s: Issuer, token: string, operation: string, now: int): (Issuer, Result<Ticket, TicketError>) {
    if token == "" then (s, Failure(UnknownTicket))
    else if Marked(s.consumed, token) then (s, Failure(TicketReplayed))
    else if token !in s.tickets then (s, Failure(UnknownTicket))
    else
      var ticket := s.tickets[token];
      if now >= ticket.expiresAt then (PrunedIssuer(s, now), Failure(TicketExpired))
      else if operation != ticket.operation then (s, Failure(WrongOperation))
      else
        (PrunedIssuer(Issuer(s.tickets - {token}, WithMark(s.consumed, MAX_CONSUMED_TICKETS, Mark(token, ticket.expiresAt))), now),
         Success(ticket))
  }

  class TicketIssuer {
    var tickets: map<string, Ticket>
    var consumed: seq<Mark>

    ghost function View(): Issuer
      reads this
    {
      Issuer(tickets, consumed)
    }

    constructor ()
      ensures View() == Issuer(map[], [])
    {
      tickets, consumed := map[], [];
    }

    method Prune(now: int)
      modifies this
      ensures View() == PrunedIssuer(old(View()), now)
    {
      var expired := set token | token in tickets && tickets[token].expiresAt <= now;
      tickets := tickets - expired;
      consumed := Unexpired(consumed, now);
    }

    method Issue(authorization: Authorization, ttl: int, token: string, now: int) returns (r: Result<Ticket, TicketError>)
      modifies this
      ensures (View(), r) == IssueIn(old(View()), authorization, ttl, token, now)
    {
      if authorization.operation != UNLOCK_OPERATION {
        return Failure(WrongOperation);
      }
      if ttl < 1 || ttl > MAX_TICKET_TTL_SECONDS {
        return Failure(BadTtl);
      }
      if now >= authorization.expiresAt {
        return Failure(TicketExpired);
      }
      var expiresAt := Min(now + ttl, authorization.expiresAt);
      var ticket := Ticket(token, authorization.device, authorization.operation, now, expiresAt);
      Prune(now);
      tickets := tickets[token := ticket];
      r := Success(ticket);
    }

    method Consume(token: string, operation: string, now: int) returns (r: Result<Ticket, TicketError>)
      modifies this
      ensures (View(), r) == ConsumeIn(old(View()), token, operation, now)
    {
      if token == "" {
        return Failure(UnknownTicket);
      }
      if Marked(consumed, token) {
        return Failure(TicketReplayed);
      }
      if token !in tickets {
        return Failure(UnknownTicket);
      }
      var ticket := tickets[token];
      if now >= ticket.expiresAt {
        tickets := tickets - {token};
        Prune(now);
        assert tickets == PrunedIssuer(old(View()), now).tickets;
        return Failure(TicketExpired);
      }
      if operation != ticket.operation {
        return Failure(WrongOperation);
      }
      tickets := tickets - {token};
      if |consumed| >= MAX_CONSUMED_TICKETS {
        consumed := consumed[1..];
      }
      consumed := consumed + [Mark(token, ticket.expiresAt)];
      Prune(now);
      r := Success(ticket);
    }
  }
}

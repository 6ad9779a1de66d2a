/**
 * Runs of the verifier, the ticket issuer and the sessions opened on accepted challenges
 * (windows-agent/trusted_unlock_protocol.py, windows-agent/trusted_unlock_ticket.py, backend/pipa_core/core.py).
 *
 * Identifiers and tokens are fresh; every clock reading is arbitrary, forwards or backwards.
 */
module TrustedRuns {
  import opened Prelude
  import opened TrustedUnlock

  datatype Entry =
    | Registered(device: string, key: Key)
    | Revoked(device: string)
    | Challenged(challenge: Challenge)
    | Accepted(authorization: Authorization, challenge: Challenge, key: Key, session: Option<string>)
    | Issued(ticket: Ticket, authorization: Authorization)
    | Redeemed(ticket: Ticket, operation: string, at: int)
    // a call that failed, but first dropped what had expired
    | VerifierSwept(at: int)
    | IssuerSwept(at: int)

  datatype System = System(verifier: Verifier, issuer: Issuer, used: set<string>, log: seq<Entry>)

  datatype Action =
    | Register(device: string, key: Key)
    | Revoke(device: string)
    | Create(device: string, operation: string, ttl: int, id: string, nonce: string, now: int)
    | Verify(response: Response, now: int)
    | Authenticate(response: Response, sessionId: string, admitted: bool, now: int)
    | Issue(authorization: Authorization, ttl: int, token: string, now: int)
    | Consume(token: string, operation: string, now: int)

  /** Ids are new, and only an authorization the verifier gave out is exchanged for a ticket. */
  ghost predicate Enabled(s: System, a: Action) {
    match a
    case Create(_, _, _, id, _, _) => id !in s.used
    case Authenticate(_, sessionId, _, _) => sessionId !in s.used
    case Issue(authorization, _, token, _) =>
      token != "" && token !in s.used && exists e :: e in s.log && e.Accepted? && e.authorization == authorization
    case _ => true
  }

  function AfterVerify(s: System, response: Response, session: Option<string>, now: int): System {
    var (verifier, r) := VerifyIn(s.verifier, response, now);
    if r.Failure? then s.(verifier := verifier, log := if r.error.Replayed? then s.log else s.log + [VerifierSwept(now)])
    else
      var challenge := s.verifier.pending[response.challengeId];
      s.(verifier := verifier, log := s.log + [Accepted(r.value, challenge, s.verifier.trusted[challenge.device], session)])
  }

  function Creation(r: Result<Challenge, UnlockError>, now: int): seq<Entry> {
    match r
    case Success(challenge) => [Challenged(challenge)]
    case Failure(error) => if error.BadValue? then [] else [VerifierSwept(now)]
  }

  /** The operation is the one that was asked for. */
  function Redemption(r: Result<Ticket, TicketError>, operation: string, now: int): seq<Entry> {
    match r
    case Success(ticket) => [Redeemed(ticket, operation, now)]
    case Failure(error) => if error.TicketExpired? then [IssuerSwept(now)] else []
  }

  function Next(s: System, a: Action): System {
    match a
    case Register(device, key) =>
      if !IsIdentifier(device) then s
      else s.(verifier := s.verifier.(trusted := s.verifier.trusted[device := key]), log := s.log + [Registered(device, key)])
    case Revoke(device) =>
      s.(verifier := s.verifier.(trusted := s.verifier.trusted - {device}), log := s.log + [Revoked(device)])
    case Create(device, operation, ttl, id, nonce, now) =>
      var (verifier, r) := CreateIn(s.verifier, device, operation, ttl, id, nonce, now);
      s.(verifier := verifier, used := s.used + {id}, log := s.log + Creation(r, now))
    case Verify(response, now) => AfterVerify(s, response, None, now)
    case Authenticate(response, sessionId, admitted, now) =>
      AfterVerify(s, response, if admitted then Some(sessionId) else None, now).(used := s.used + {sessionId})
    case Issue(authorization, ttl, token, now) =>
      var (issuer, r) := IssueIn(s.issuer, authorization, ttl, token, now);
      s.(issuer := issuer, used := s.used + {token}, log := if r.Success? then s.log + [Issued(r.value, authorization)] else s.log)
    case Consume(token, operation, now) =>
      var (issuer, r) := ConsumeIn(s.issuer, token, operation, now);
      s.(issuer := issuer, log := s.log + Redemption(r, operation, now))
  }

  predicate Init(s: System) {
    s.verifier.trusted == map[] && s.verifier.pending == map[] && s.verifier.consumed == [] &&
    s.issuer == Issuer(map[], []) && s.log == []
  }

  ghost predicate Behaviour(systems: seq<System>, actions: seq<Action>) {
    && |systems| == |actions| + 1 && Init(systems[0])
    && forall i :: 0 <= i < |actions| ==> Enabled(systems[i], actions[i]) && systems[i + 1] == Next(systems[i], actions[i])
  }

  // ----- What the log says -----

  /** The key a device has according to the registrations so far. */
  function KeyOf(log: seq<Entry>, device: string): Option<Key> {
    if log == [] then None
    else
      var e, rest := log[|log| - 1], log[..|log| - 1];
      if e.Registered? && e.device == device then Some(e.key)
      else if e.Revoked? && e.device == device then None
      else KeyOf(rest, device)
  }

  predicate HasChallenged(log: seq<Entry>, id: string) {
    exists e :: e in log && e.Challenged? && e.challenge.id == id
  }

  predicate HasAccepted(log: seq<Entry>, id: string) {
    exists e :: e in log && e.Accepted? && e.challenge.id == id
  }

  predicate HasSession(log: seq<Entry>, session: string) {
    exists e :: e in log && e.Accepted? && e.session == Some(session)
  }

  predicate HasIssued(log: seq<Entry>, token: string) {
    exists e :: e in log && e.Issued? && e.ticket.token == token
  }

  predicate HasRedeemed(log: seq<Entry>, token: string) {
    exists e :: e in log && e.Redeemed? && e.ticket.token == token
  }

  predicate Explained(skew: nat, past: seq<Entry>, e: Entry) {
    match e
    case Registered(_, _) => true
    case Revoked(_) => true
    case Challenged(c) => !HasChallenged(past, c.id) && c.issuedAt < c.expiresAt <= c.issuedAt + MAX_TTL_SECONDS
    case Accepted(a, c, key, session) =>
      && Challenged(c) in past && !HasAccepted(past, c.id) && KeyOf(past, c.device) == Some(key)
      && a.challengeId == c.id && a.device == c.device && a.operation == c.operation && a.expiresAt == c.expiresAt
      && c.issuedAt - skew <= a.verifiedAt < c.expiresAt
      && (session.Some? ==> !HasSession(past, session.value))
    case Issued(t, a) =>
      && (exists x :: x in past && x.Accepted? && x.authorization == a) && !HasIssued(past, t.token) && t.token != ""
      && a.operation == UNLOCK_OPERATION && t.device == a.device && t.operation == a.operation
      && t.issuedAt < t.expiresAt <= Min(t.issuedAt + MAX_TICKET_TTL_SECONDS, a.expiresAt)
    case Redeemed(t, operation, at) =>
      && (exists x :: x in past && x.Issued? && x.ticket == t) && !HasRedeemed(past, t.token)
      && operation == t.operation && at < t.expiresAt
    case VerifierSwept(_) => true
    case IssuerSwept(_) => true
  }

  predicate LogExplained(skew: nat, log: seq<Entry>) {
    forall k :: 0 <= k < |log| ==> Explained(skew, log[..k], log[k])
  }

  // ----- The invariant -----

  predicate IdsUsed(s: System) {
    forall e :: e in s.log ==>
      && (e.Challenged? ==> e.challenge.id in s.used) && (e.Issued? ==> e.ticket.token in s.used)
      && (e.Accepted? && e.session.Some? ==> e.session.value in s.used)
  }

  predicate PendingKnown(s: System) {
    forall id :: id in s.verifier.pending ==>
      s.verifier.pending[id].id == id && Challenged(s.verifier.pending[id]) in s.log && !HasAccepted(s.log, id)
  }

  predicate TicketsKnown(s: System) {
    forall token :: token in s.issuer.tickets ==>
      && s.issuer.tickets[token].token == token && !HasRedeemed(s.log, token)
      && exists e :: e in s.log && e.Issued? && e.ticket == s.issuer.tickets[token]
  }

  ghost predicate TrustKnown(s: System) {
    forall device :: KeyOf(s.log, device) == if device in s.verifier.trusted then Some(s.verifier.trusted[device]) else None
  }

  /** The consumed tables only ever name what was accepted or redeemed, so they never stand in the way of anything else. */
  ghost predicate ConsumedKnown(s: System) {
    && (forall id :: Marked(s.verifier.consumed, id) ==> HasAccepted(s.log, id))
    && forall token :: Marked(s.issuer.consumed, token) ==> HasRedeemed(s.log, token)
  }

  ghost predicate Bounded(s: System) {
    BoundedVerifier(s.verifier) && |s.issuer.consumed| <= MAX_CONSUMED_TICKETS
  }

  ghost predicate Inv(s: System) {
    && IdsUsed(s) && PendingKnown(s) && TicketsKnown(s) && TrustKnown(s) && ConsumedKnown(s)
    && LogExplained(s.verifier.skew, s.log)
  }

  lemma InitInv(s: System)
    requires Init(s)
    ensures Inv(s) && Bounded(s)
  {
    assert forall device :: PendingFor(s.verifier.pending, device) == {};
  }

  // ----- Every step keeps it -----

  lemma ExplainOneMore(skew: nat, log: seq<Entry>, e: Entry)
    requires LogExplained(skew, log) && Explained(skew, log, e)
    ensures LogExplained(skew, log + [e])
  {
    hide Explained;
    var longer := log + [e];
    forall k | 0 <= k < |longer|
      ensures Explained(skew, longer[..k], longer[k])
    {
      assert longer[..k] == log[..k];
      assert k == |log| ==> log[..k] == log;
    }
  }

  lemma KeyOfAppend(log: seq<Entry>, e: Entry)
    ensures forall device :: KeyOf(log + [e], device) ==
              if e.Registered? && e.device == device then Some(e.key)
              else if e.Revoked? && e.device == device then None
              else KeyOf(log, device)
  {
    assert (log + [e])[..|log|] == log;
  }

  /** Entries other than an acceptance and a redemption keep what is known about pending things. */
  lemma KnownLater(s: System, after: System, e: Entry)
    requires PendingKnown(s) && TicketsKnown(s) && ConsumedKnown(s) && after.log == s.log + [e]
    requires forall id :: id in after.verifier.pending ==>
               id in s.verifier.pending && after.verifier.pending[id] == s.verifier.pending[id] && !(e.Accepted? && e.challenge.id == id)
    requires forall t :: t in after.issuer.tickets ==>
               t in s.issuer.tickets && after.issuer.tickets[t] == s.issuer.tickets[t] && !(e.Redeemed? && e.ticket.token == t)
    requires forall id :: Marked(after.verifier.consumed, id) ==>
               Marked(s.verifier.consumed, id) || (e.Accepted? && e.challenge.id == id)
    requires forall t :: Marked(after.issuer.consumed, t) ==>
               Marked(s.issuer.consumed, t) || (e.Redeemed? && e.ticket.token == t)
    ensures PendingKnown(after) && TicketsKnown(after) && ConsumedKnown(after)
  {
    hide Marked;
    assert forall x :: x in after.log <==> x in s.log || x == e;
  }

  lemma PrunedKeeps(s: System, after: System)
    requires Inv(s) && after.log == s.log && s.used <= after.used && after.verifier.skew == s.verifier.skew
    requires after.verifier.trusted == s.verifier.trusted
    requires forall id :: id in after.verifier.pending ==> id in s.verifier.pending && after.verifier.pending[id] == s.verifier.pending[id]
    requires forall t :: t in after.issuer.tickets ==> t in s.issuer.tickets && after.issuer.tickets[t] == s.issuer.tickets[t]
    requires forall id :: Marked(after.verifier.consumed, id) ==> Marked(s.verifier.consumed, id)
    requires forall t :: Marked(after.issuer.consumed, t) ==> Marked(s.issuer.consumed, t)
    ensures Inv(after)
  {
    hide Marked, KeyOf, LogExplained;
  }

  /** A failed call that dropped what had expired. */
  lemma SweptKeeps(s: System, after: System, e: Entry)
    requires Inv(s) && after.log == s.log + [e] && s.used <= after.used && after.verifier.skew == s.verifier.skew
    requires (e.VerifierSwept? || e.IssuerSwept?) && after.verifier.trusted == s.verifier.trusted
    requires forall id :: id in after.verifier.pending ==> id in s.verifier.pending && after.verifier.pending[id] == s.verifier.pending[id]
    requires forall t :: t in after.issuer.tickets ==> t in s.issuer.tickets && after.issuer.tickets[t] == s.issuer.tickets[t]
    requires forall id :: Marked(after.verifier.consumed, id) ==> Marked(s.verifier.consumed, id)
    requires forall t :: Marked(after.issuer.consumed, t) ==> Marked(s.issuer.consumed, t)
    ensures Inv(after)
  {
    hide Marked, KeyOf, LogExplained, PendingKnown, TicketsKnown, ConsumedKnown;
    KnownLater(s, after, e);
    Appended(s, after, e);
  }

  lemma RegisterKeeps(s: System, a: Action)
    requires Inv(s) && (a.Register? || a.Revoke?)
    ensures Inv(Next(s, a))
  {
    hide Marked, LogExplained, KeyOf, IsIdentifier;
    var after := Next(s, a);
    if after.log != s.log {
      var e := after.log[|s.log|];
      KeyOfAppend(s.log, e);
      KnownLater(s, after, e);
      ExplainOneMore(s.verifier.skew, s.log, e);
    }
  }

  /** Ids that were accepted or redeemed were handed out before. */
  lemma OnlyUsedIds(s: System)
    requires Inv(s)
    ensures forall e :: e in s.log ==> (e.Accepted? ==> e.challenge.id in s.used) && (e.Redeemed? ==> e.ticket.token in s.used)
  {
    hide KeyOf;
    forall k | 0 <= k < |s.log|
      ensures s.log[k].Accepted? ==> s.log[k].challenge.id in s.used
      ensures s.log[k].Redeemed? ==> s.log[k].ticket.token in s.used
    {
      assert Explained(s.verifier.skew, s.log[..k], s.log[k]);
      assert forall e :: e in s.log[..k] ==> e in s.log;
    }
  }

  lemma FreshIsUnknown(s: System, id: string)
    requires Inv(s) && id !in s.used
    ensures !HasChallenged(s.log, id) && !HasAccepted(s.log, id) && !HasSession(s.log, id)
    ensures !HasIssued(s.log, id) && !HasRedeemed(s.log, id)
  {
    hide KeyOf, LogExplained;
    OnlyUsedIds(s);
  }

  /** A step that appends one explained entry. */
  lemma Appended(s: System, after: System, e: Entry)
    requires Inv(s) && Explained(s.verifier.skew, s.log, e) && after.log == s.log + [e] && after.verifier.skew == s.verifier.skew
    requires s.used <= after.used && IdsUsed(after) && !e.Registered? && !e.Revoked? && after.verifier.trusted == s.verifier.trusted
    requires PendingKnown(after) && TicketsKnown(after) && ConsumedKnown(after)
    ensures Inv(after)
  {
    hide Marked, LogExplained, KeyOf, IdsUsed, PendingKnown, TicketsKnown, Explained;
    KeyOfAppend(s.log, e);
    ExplainOneMore(s.verifier.skew, s.log, e);
  }

  lemma CreateKeeps(s: System, a: Action)
    requires Inv(s) && a.Create? && Enabled(s, a)
    ensures Inv(Next(s, a))
  {
    hide Marked, LogExplained, KeyOf, IsIdentifier, Unexpired, PendingFor;
    var after := Next(s, a);
    var r := CreateIn(s.verifier, a.device, a.operation, a.ttl, a.id, a.nonce, a.now).1;
    UnexpiredMarks(s.verifier.consumed, a.now);
    if r == Failure(BadValue) {
      assert after.log == s.log;
      PrunedKeeps(s, after);
    } else if r.Failure? {
      SweptKeeps(s, after, VerifierSwept(a.now));
    } else {
      CreatedKeeps(s, a, r.value);
    }
  }

  lemma CreatedKeeps(s: System, a: Action, c: Challenge)
    requires Inv(s) && a.Create? && Enabled(s, a)
    requires CreateIn(s.verifier, a.device, a.operation, a.ttl, a.id, a.nonce, a.now).1 == Success(c)
    ensures Inv(Next(s, a))
  {
    hide Marked, LogExplained, KeyOf, IsIdentifier, Unexpired, PendingFor, PendingKnown, TicketsKnown, ConsumedKnown;
    var after, e := Next(s, a), Challenged(c);
    var between := after.(verifier := after.verifier.(pending := PrunedVerifier(s.verifier, a.now).pending));
    UnexpiredMarks(s.verifier.consumed, a.now);
    FreshIsUnknown(s, a.id);
    KnownLater(s, between, e);
    AddChallenge(between, after, a.id, c);
    Appended(s, after, e);
  }

  lemma AddChallenge(s: System, after: System, id: string, c: Challenge)
    requires PendingKnown(s) && TicketsKnown(s) && ConsumedKnown(s)
    requires after == s.(verifier := s.verifier.(pending := s.verifier.pending[id := c]))
    requires c.id == id && Challenged(c) in s.log && !HasAccepted(s.log, id)
    ensures PendingKnown(after) && TicketsKnown(after) && ConsumedKnown(after)
  {
  }

  lemma UnexpiredMarks(consumed: seq<Mark>, now: int)
    ensures forall id :: Marked(Unexpired(consumed, now), id) ==> Marked(consumed, id)
  {
  }

  lemma IssueKeeps(s: System, a: Action)
    requires Inv(s) && a.Issue? && Enabled(s, a)
    ensures Inv(Next(s, a))
  {
    hide Marked, LogExplained, KeyOf, Unexpired;
    var after := Next(s, a);
    var r := IssueIn(s.issuer, a.authorization, a.ttl, a.token, a.now).1;
    UnexpiredMarks(s.issuer.consumed, a.now);
    if r.Failure? {
      PrunedKeeps(s, after);
    } else {
      IssuedKeeps(s, a, r.value);
    }
  }

  lemma IssuedKeeps(s: System, a: Action, t: Ticket)
    requires Inv(s) && a.Issue? && Enabled(s, a) && IssueIn(s.issuer, a.authorization, a.ttl, a.token, a.now).1 == Success(t)
    ensures Inv(Next(s, a))
  {
    hide Marked, LogExplained, KeyOf, Unexpired, PendingKnown, TicketsKnown, ConsumedKnown;
    var after, e := Next(s, a), Issued(t, a.authorization);
    var between := after.(issuer := after.issuer.(tickets := PrunedIssuer(s.issuer, a.now).tickets));
    UnexpiredMarks(s.issuer.consumed, a.now);
    FreshIsUnknown(s, a.token);
    KnownLater(s, between, e);
    AddTicket(between, after, t, e);
    Appended(s, after, e);
  }

  lemma AddTicket(s: System, after: System, t: Ticket, e: Entry)
    requires PendingKnown(s) && TicketsKnown(s) && ConsumedKnown(s)
    requires after == s.(issuer := s.issuer.(tickets := s.issuer.tickets[t.token := t]))
    requires e in s.log && e.Issued? && e.ticket == t && !HasRedeemed(s.log, t.token)
    ensures PendingKnown(after) && TicketsKnown(after) && ConsumedKnown(after)
  {
  }

  lemma ConsumeKeeps(s: System, a: Action)
    requires Inv(s) && a.Consume?
    ensures Inv(Next(s, a))
  {
    hide Marked, LogExplained, KeyOf, Unexpired, WithMark;
    var after := Next(s, a);
    var r := ConsumeIn(s.issuer, a.token, a.operation, a.now).1;
    UnexpiredMarks(s.issuer.consumed, a.now);
    if r == Failure(TicketExpired) {
      SweptKeeps(s, after, IssuerSwept(a.now));
    } else if r.Failure? {
      assert after.log == s.log;
      PrunedKeeps(s, after);
    } else {
      var e := Redeemed(r.value, a.operation, a.now);
      var marked := WithMark(s.issuer.consumed, MAX_CONSUMED_TICKETS, Mark(a.token, r.value.expiresAt));
      MarkedAfter(s.issuer.consumed, MAX_CONSUMED_TICKETS, Mark(a.token, r.value.expiresAt));
      UnexpiredMarks(marked, a.now);
      KnownLater(s, after, e);
      Appended(s, after, e);
    }
  }

  lemma MarkedAfter(consumed: seq<Mark>, limit: nat, mark: Mark)
    ensures forall id :: Marked(WithMark(consumed, limit, mark), id) ==> Marked(consumed, id) || id == mark.id
  {
    forall id | Marked(WithMark(consumed, limit, mark), id)
      ensures Marked(consumed, id) || id == mark.id
    {
      var after := WithMark(consumed, limit, mark);
      var k :| 0 <= k < |after| && after[k].id == id;
      if k < |after| - 1 {
        assert after[k] == consumed[k + |consumed| + 1 - |after|];
      }
    }
  }

  lemma VerifyKeeps(s: System, response: Response, session: Option<string>, now: int, used: set<string>)
    requires Inv(s) && s.used <= used && (session.Some? ==> session.value in used && session.value !in s.used)
    ensures Inv(AfterVerify(s, response, session, now).(used := used))
  {
    hide Marked, LogExplained, KeyOf, Unexpired, WithMark;
    var after := AfterVerify(s, response, session, now).(used := used);
    var r := VerifyIn(s.verifier, response, now).1;
    UnexpiredMarks(s.verifier.consumed, now);
    if r == Failure(Replayed) {
      PrunedKeeps(s, after);
    } else if r.Failure? {
      SweptKeeps(s, after, VerifierSwept(now));
    } else {
      var c := s.verifier.pending[response.challengeId];
      var e := Accepted(r.value, c, s.verifier.trusted[c.device], session);
      if session.Some? {
        FreshIsUnknown(s, session.value);
      }
      MarkedAfter(Unexpired(s.verifier.consumed, now), MAX_CONSUMED_CHALLENGES, Mark(c.id, c.expiresAt));
      KnownLater(s, after, e);
      Appended(s, after, e);
    }
  }

  lemma StepKeepsInv(s: System, a: Action)
    requires Inv(s) && Enabled(s, a)
    ensures Inv(Next(s, a))
  {
    hide Inv, CreateIn, VerifyIn, IssueIn, ConsumeIn;
    match a
    case Register(_, _) => RegisterKeeps(s, a);
    case Revoke(_) => RegisterKeeps(s, a);
    case Create(_, _, _, _, _, _) => CreateKeeps(s, a);
    case Verify(response, now) =>
      VerifyKeeps(s, response, None, now, s.used);
      assert Next(s, a) == Next(s, a).(used := s.used);
    case Authenticate(response, id, admitted, now) =>
      VerifyKeeps(s, response, if admitted then Some(id) else None, now, s.used + {id});
    case Issue(_, _, _, _) => IssueKeeps(s, a);
    case Consume(_, _, _) => ConsumeKeeps(s, a);
  }

  // ----- The tables stay within their limits -----

  lemma SmallerMap(a: map<string, Challenge>, b: map<string, Challenge>)
    requires forall id :: id in a ==> id in b && a[id] == b[id]
    ensures |a| <= |b| && forall device :: |PendingFor(a, device)| <= |PendingFor(b, device)|
  {
    SubsetSize(a.Keys, b.Keys);
    forall device
      ensures |PendingFor(a, device)| <= |PendingFor(b, device)|
    {
      SubsetSize(PendingFor(a, device), PendingFor(b, device));
    }
  }

  lemma StepKeepsBounds(s: System, a: Action)
    requires Bounded(s)
    ensures Bounded(Next(s, a))
  {
    hide Unexpired, PendingFor, Marked, IsIdentifier, CreateIn, VerifyIn;
    match a
    case Create(device, operation, ttl, id, nonce, now) => CreateBounds(s.verifier, device, operation, ttl, id, nonce, now);
    case Verify(response, now) => VerifyBounds(s.verifier, response, now);
    case Authenticate(response, _, _, now) => VerifyBounds(s.verifier, response, now);
    case _ =>
  }

  ghost predicate BoundedVerifier(v: Verifier) {
    && |v.pending| <= MAX_PENDING_CHALLENGES && |v.consumed| <= MAX_CONSUMED_CHALLENGES
    && forall device :: |PendingFor(v.pending, device)| <= MAX_PENDING_PER_DEVICE
  }

  lemma CreateBounds(v: Verifier, device: string, operation: string, ttl: int, id: string, nonce: string, now: int)
    requires BoundedVerifier(v)
    ensures BoundedVerifier(CreateIn(v, device, operation, ttl, id, nonce, now).0)
  {
    hide Unexpired, PendingFor, IsIdentifier;
    var live := PrunedVerifier(v, now).pending;
    SmallerMap(live, v.pending);
    AddedPending(live, id, Challenge(id, device, nonce, now, now + ttl, operation));
  }

  lemma MarksStayBounded(consumed: seq<Mark>)
    requires |consumed| <= MAX_CONSUMED_CHALLENGES
    ensures forall mark :: |WithMark(consumed, MAX_CONSUMED_CHALLENGES, mark)| <= MAX_CONSUMED_CHALLENGES
  {
  }

  lemma VerifyBounds(v: Verifier, response: Response, now: int)
    requires BoundedVerifier(v)
    ensures BoundedVerifier(VerifyIn(v, response, now).0)
  {
    hide Unexpired, PendingFor, Marked, WithMark;
    MarksStayBounded(Unexpired(v.consumed, now));
    SmallerMap(VerifyIn(v, response, now).0.pending, v.pending);
  }

  lemma AddedPending(pending: map<string, Challenge>, id: string, c: Challenge)
    ensures |pending[id := c]| <= |pending| + 1
    ensures forall device :: |PendingFor(pending[id := c], device)| <= |PendingFor(pending, device)| + if device == c.device then 1 else 0
  {
    assert pending[id := c].Keys == pending.Keys + {id};
    forall device
      ensures |PendingFor(pending[id := c], device)| <= |PendingFor(pending, device)| + if device == c.device then 1 else 0
    {
      SubsetSize(PendingFor(pending[id := c], device), PendingFor(pending, device) + if device == c.device then {id} else {});
    }
  }

  lemma {:induction false} BehaviourKeepsInv(systems: seq<System>, actions: seq<Action>, i: nat)
    requires Behaviour(systems, actions) && i < |systems|
    ensures Inv(systems[i]) && Bounded(systems[i])
  {
    hide Inv, Bounded, Init, Next, Enabled;
    if i == 0 {
      InitInv(systems[0]);
    } else {
      BehaviourKeepsInv(systems, actions, i - 1);
      StepKeepsInv(systems[i - 1], actions[i - 1]);
      StepKeepsBounds(systems[i - 1], actions[i - 1]);
    }
  }

  // ----- Over every run -----

  /** The log of a reachable state explains each of its entries by what came before. */
  lemma EntryExplained(systems: seq<System>, actions: seq<Action>, i: nat, k: nat)
    requires Behaviour(systems, actions) && i < |systems| && k < |systems[i].log|
    ensures Explained(systems[i].verifier.skew, systems[i].log[..k], systems[i].log[k])
    ensures forall j :: 0 <= j < k ==> systems[i].log[j] in systems[i].log[..k]
  {
    hide Explained, Behaviour, KeyOf, Marked;
    BehaviourKeepsInv(systems, actions, i);
    var log := systems[i].log;
    assert forall j :: 0 <= j < k ==> log[..k][j] == log[j];
  }

  /** A challenge is accepted at most once, whatever the clock readings and however often the tables were evicted. */
  lemma ChallengeIsAcceptedOnce(systems: seq<System>, actions: seq<Action>, i: nat, j: nat, k: nat)
    requires Behaviour(systems, actions) && i < |systems| && j < |systems[i].log| && k < |systems[i].log|
    requires systems[i].log[j].Accepted? && systems[i].log[k].Accepted?
    requires systems[i].log[j].challenge.id == systems[i].log[k].challenge.id
    ensures j == k
  {
    hide Behaviour, KeyOf;
    EntryExplained(systems, actions, i, j);
    EntryExplained(systems, actions, i, k);
  }

  lemma OneAcceptanceIn(s: System, j: nat, k: nat)
    requires Inv(s) && j < |s.log| && k < |s.log| && s.log[j].Accepted? && s.log[k].Accepted?
    requires s.log[j].challenge.id == s.log[k].challenge.id || (s.log[j].session.Some? && s.log[j].session == s.log[k].session)
    ensures j == k
  {
    hide KeyOf;
    var log := s.log;
    assert Explained(s.verifier.skew, log[..j], log[j]) && Explained(s.verifier.skew, log[..k], log[k]);
    assert forall m, n :: 0 <= m < n < |log| ==> log[m] in log[..n];
  }

  /** Different v1 sessions were opened on different accepted challenges, each of the session's own device. */
  lemma SessionsOwnTheirChallenge(systems: seq<System>, actions: seq<Action>, i: nat, j: nat, k: nat)
    requires Behaviour(systems, actions) && i < |systems| && j < |systems[i].log| && k < |systems[i].log|
    requires systems[i].log[j].Accepted? && systems[i].log[j].session.Some?
    requires systems[i].log[k].Accepted? && systems[i].log[k].session.Some?
    ensures systems[i].log[j].session == systems[i].log[k].session <==> systems[i].log[j].challenge.id == systems[i].log[k].challenge.id
    ensures systems[i].log[j].authorization.device == systems[i].log[j].challenge.device
  {
    hide Behaviour, KeyOf;
    EntryExplained(systems, actions, i, j);
    EntryExplained(systems, actions, i, k);
  }

  /** The response to a challenge that was ever accepted is refused from then on, at every clock reading. */
  lemma ReplayIsRefused(systems: seq<System>, actions: seq<Action>, i: nat, k: nat, response: Response, now: int)
    requires Behaviour(systems, actions) && i < |systems| && k < |systems[i].log| && systems[i].log[k].Accepted?
    requires response.challengeId == systems[i].log[k].challenge.id
    ensures VerifyIn(systems[i].verifier, response, now).1.Failure?
  {
    hide Behaviour, KeyOf, Marked, LogExplained;
    BehaviourKeepsInv(systems, actions, i);
    assert HasAccepted(systems[i].log, response.challengeId);
  }

  /** The acceptance and the challenge behind a redeemed ticket. */
  ghost predicate Chain(past: seq<Entry>, ticket: Ticket, operation: string, at: int, c: Challenge, accepted: Entry) {
    && accepted in past && accepted.Accepted? && accepted.challenge == c && Challenged(c) in past
    && Issued(ticket, accepted.authorization) in past
    && c.device == ticket.device && c.operation == ticket.operation == operation == UNLOCK_OPERATION
    && at < c.expiresAt <= c.issuedAt + MAX_TTL_SECONDS
    && at < ticket.issuedAt + MAX_TICKET_TTL_SECONDS && ticket.issuedAt < c.expiresAt
  }

  /**
   * A redeemed ticket comes from one accepted challenge of the same device, is redeemed before that challenge
   * expires, at most a minute after it was issued, and within ten seconds of the ticket.
   */
  lemma RedeemedTicketsHaveAChain(systems: seq<System>, actions: seq<Action>, i: nat, k: nat)
    requires Behaviour(systems, actions) && i < |systems| && k < |systems[i].log| && systems[i].log[k].Redeemed?
    ensures var e := systems[i].log[k];
            exists c, accepted :: Chain(systems[i].log[..k], e.ticket, e.operation, e.at, c, accepted)
  {
    hide Behaviour, KeyOf, HasIssued, HasRedeemed, HasAccepted, HasChallenged, HasSession;
    var log := systems[i].log;
    EntryExplained(systems, actions, i, k);
    var m :| 0 <= m < k && log[m].Issued? && log[m].ticket == log[k].ticket;
    EntryExplained(systems, actions, i, m);
    var n :| 0 <= n < m && log[n].Accepted? && log[n].authorization == log[m].authorization;
    EntryExplained(systems, actions, i, n);
    var p :| 0 <= p < n && log[p] == Challenged(log[n].challenge);
    EntryExplained(systems, actions, i, p);
    assert log[p] in log[..k] && log[m] == Issued(log[k].ticket, log[n].authorization);
    assert Chain(log[..k], log[k].ticket, log[k].operation, log[k].at, log[n].challenge, log[n]);
  }

  /** No ticket is redeemed twice, even after its mark was evicted. */
  lemma TicketIsRedeemedOnce(systems: seq<System>, actions: seq<Action>, i: nat, j: nat, k: nat)
    requires Behaviour(systems, actions) && i < |systems| && j < |systems[i].log| && k < |systems[i].log|
    requires systems[i].log[j].Redeemed? && systems[i].log[k].Redeemed?
    requires systems[i].log[j].ticket.token == systems[i].log[k].ticket.token
    ensures j == k
  {
    hide Behaviour, KeyOf;
    EntryExplained(systems, actions, i, j);
    EntryExplained(systems, actions, i, k);
  }
}

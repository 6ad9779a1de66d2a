/**
 * Exactly when a challenge is created, a response accepted, a ticket issued and a ticket redeemed, in terms of what
 * happened before (windows-agent/trusted_unlock_protocol.py, windows-agent/trusted_unlock_ticket.py).
 */
module TrustedOutcomes {
  import opened Prelude
  import opened TrustedUnlock
  import opened TrustedRuns

  // ----- What is held, according to the log -----

  /** The reading of the clock by which a call dropped expired challenges. */
  function VerifierReading(e: Entry): Option<int> {
    match e
    case Challenged(c) => Some(c.issuedAt)
    case Accepted(a, _, _, _) => Some(a.verifiedAt)
    case VerifierSwept(at) => Some(at)
    case _ => None
  }

  function IssuerReading(e: Entry): Option<int> {
    match e
    case Issued(t, _) => Some(t.issuedAt)
    case Redeemed(_, _, at) => Some(at)
    case IssuerSwept(at) => Some(at)
    case _ => None
  }

  predicate Drops(reading: Option<int>, expiresAt: int) {
    reading.Some? && expiresAt <= reading.value
  }

  /** The challenge was created at `k`, not accepted since, and no later call on the verifier found it expired. */
  predicate AwaitsFrom(log: seq<Entry>, k: nat, c: Challenge) {
    && k < |log| && log[k] == Challenged(c) && !HasAccepted(log, c.id)
    && forall j :: k < j < |log| ==> !Drops(VerifierReading(log[j]), c.expiresAt)
  }

  ghost predicate Awaits(log: seq<Entry>, c: Challenge) {
    exists k :: AwaitsFrom(log, k, c)
  }

  /** The ticket was issued at `k`, not redeemed since, and no later call on the issuer found it expired. */
  predicate RedeemableFrom(log: seq<Entry>, k: nat, t: Ticket) {
    && k < |log| && log[k].Issued? && log[k].ticket == t && !HasRedeemed(log, t.token)
    && forall j :: k < j < |log| ==> !Drops(IssuerReading(log[j]), t.expiresAt)
  }

  ghost predicate Redeemable(log: seq<Entry>, t: Ticket) {
    exists k :: RedeemableFrom(log, k, t)
  }

  /** The tables hold exactly what the log says. */
  ghost predicate TablesKnown(s: System) {
    && (forall c: Challenge :: Awaits(s.log, c) <==> c.id in s.verifier.pending && s.verifier.pending[c.id] == c)
    && (forall t: Ticket :: Redeemable(s.log, t) <==> t.token in s.issuer.tickets && s.issuer.tickets[t.token] == t)
  }

  // ----- One more entry -----

  lemma AwaitsAppend(log: seq<Entry>, e: Entry, c: Challenge)
    ensures Awaits(log + [e], c) <==>
              || (e == Challenged(c) && !HasAccepted(log, c.id))
              || (Awaits(log, c) && !Drops(VerifierReading(e), c.expiresAt) && !(e.Accepted? && e.challenge.id == c.id))
  {
    var longer := log + [e];
    assert HasAccepted(longer, c.id) <==> HasAccepted(log, c.id) || (e.Accepted? && e.challenge.id == c.id) by {
      assert forall x :: x in longer <==> x in log || x == e;
    }
    if k: nat :| AwaitsFrom(longer, k, c) {
      if k < |log| {
        assert forall j :: k < j < |log| ==> longer[j] == log[j];
        assert AwaitsFrom(log, k, c) && longer[|log|] == e;
      }
    }
    if k: nat :| AwaitsFrom(log, k, c) && !Drops(VerifierReading(e), c.expiresAt) && !(e.Accepted? && e.challenge.id == c.id) {
      assert AwaitsFrom(longer, k, c);
    }
    if e == Challenged(c) && !HasAccepted(log, c.id) {
      assert AwaitsFrom(longer, |log|, c);
    }
  }

  lemma RedeemableAppend(log: seq<Entry>, e: Entry, t: Ticket)
    ensures Redeemable(log + [e], t) <==>
              || (e.Issued? && e.ticket == t && !HasRedeemed(log, t.token))
              || (Redeemable(log, t) && !Drops(IssuerReading(e), t.expiresAt) && !(e.Redeemed? && e.ticket.token == t.token))
  {
    var longer := log + [e];
    assert HasRedeemed(longer, t.token) <==> HasRedeemed(log, t.token) || (e.Redeemed? && e.ticket.token == t.token) by {
      assert forall x :: x in longer <==> x in log || x == e;
    }
    if k: nat :| RedeemableFrom(longer, k, t) {
      if k < |log| {
        assert forall j :: k < j < |log| ==> longer[j] == log[j];
        assert RedeemableFrom(log, k, t) && longer[|log|] == e;
      }
    }
    if k: nat :| RedeemableFrom(log, k, t) && !Drops(IssuerReading(e), t.expiresAt) && !(e.Redeemed? && e.ticket.token == t.token) {
      assert RedeemableFrom(longer, k, t);
    }
    if e.Issued? && e.ticket == t && !HasRedeemed(log, t.token) {
      assert RedeemableFrom(longer, |log|, t);
    }
  }

  /** What a call that logs `e` has to do to the tables. */
  lemma TablesLater(s: System, after: System, e: Entry)
    requires TablesKnown(s) && after.log == s.log + [e]
    requires forall c: Challenge :: (c.id in after.verifier.pending && after.verifier.pending[c.id] == c) <==>
               || (e == Challenged(c) && !HasAccepted(s.log, c.id))
               || (c.id in s.verifier.pending && s.verifier.pending[c.id] == c
                   && !Drops(VerifierReading(e), c.expiresAt) && !(e.Accepted? && e.challenge.id == c.id))
    requires forall t: Ticket :: (t.token in after.issuer.tickets && after.issuer.tickets[t.token] == t) <==>
               || (e.Issued? && e.ticket == t && !HasRedeemed(s.log, t.token))
               || (t.token in s.issuer.tickets && s.issuer.tickets[t.token] == t
                   && !Drops(IssuerReading(e), t.expiresAt) && !(e.Redeemed? && e.ticket.token == t.token))
    ensures TablesKnown(after)
  {
    hide Awaits, Redeemable, VerifierReading, IssuerReading, HasAccepted, HasRedeemed, Drops;
    forall c: Challenge
      ensures Awaits(after.log, c) <==> c.id in after.verifier.pending && after.verifier.pending[c.id] == c
    {
      AwaitsAppend(s.log, e, c);
    }
    forall t: Ticket
      ensures Redeemable(after.log, t) <==> t.token in after.issuer.tickets && after.issuer.tickets[t.token] == t
    {
      RedeemableAppend(s.log, e, t);
    }
  }

  // ----- Every step keeps it -----

  lemma VerifierTablesLater(s: System, after: System, e: Entry)
    requires TablesKnown(s) && after.log == s.log + [e] && after.issuer == s.issuer && !e.Issued? && !e.Redeemed? && !e.IssuerSwept?
    requires forall c: Challenge :: (c.id in after.verifier.pending && after.verifier.pending[c.id] == c) <==>
               || (e == Challenged(c) && !HasAccepted(s.log, c.id))
               || (c.id in s.verifier.pending && s.verifier.pending[c.id] == c
                   && !Drops(VerifierReading(e), c.expiresAt) && !(e.Accepted? && e.challenge.id == c.id))
    ensures TablesKnown(after)
  {
    hide Awaits, Redeemable, HasAccepted, HasRedeemed;
    TablesLater(s, after, e);
  }

  lemma IssuerTablesLater(s: System, after: System, e: Entry)
    requires TablesKnown(s) && after.log == s.log + [e] && after.verifier == s.verifier && (e.Issued? || e.Redeemed? || e.IssuerSwept?)
    requires forall t: Ticket :: (t.token in after.issuer.tickets && after.issuer.tickets[t.token] == t) <==>
               || (e.Issued? && e.ticket == t && !HasRedeemed(s.log, t.token))
               || (t.token in s.issuer.tickets && s.issuer.tickets[t.token] == t
                   && !Drops(IssuerReading(e), t.expiresAt) && !(e.Redeemed? && e.ticket.token == t.token))
    ensures TablesKnown(after)
  {
    hide Awaits, Redeemable, HasAccepted, HasRedeemed;
    TablesLater(s, after, e);
  }

  lemma SweepTables(s: System, after: System, now: int)
    requires TablesKnown(s) && after.log == s.log + [VerifierSwept(now)] && after.issuer == s.issuer
    requires after.verifier.pending == PrunedVerifier(s.verifier, now).pending
    ensures TablesKnown(after)
  {
    hide Awaits, Redeemable, HasAccepted, HasRedeemed, Unexpired, TablesKnown;
    VerifierTablesLater(s, after, VerifierSwept(now));
  }

  lemma CreateTables(s: System, a: Action)
    requires Inv(s) && TablesKnown(s) && Enabled(s, a) && a.Create?
    ensures TablesKnown(Next(s, a))
  {
    hide Awaits, Redeemable, Inv, Unexpired, IsIdentifier, PendingFor, HasAccepted, HasRedeemed;
    var after, r := Next(s, a), CreateIn(s.verifier, a.device, a.operation, a.ttl, a.id, a.nonce, a.now).1;
    FreshIsUnknown(s, a.id);
    if r == Failure(BadValue) {
      assert after.log == s.log;
    } else if r.Failure? {
      SweepTables(s, after, a.now);
    } else {
      FreshIsNotPending(s, a.id);
      VerifierTablesLater(s, after, Challenged(r.value));
    }
  }

  lemma FreshIsNotPending(s: System, id: string)
    requires Inv(s) && id !in s.used
    ensures id !in s.verifier.pending && id !in s.issuer.tickets
  {
    hide KeyOf, LogExplained, Marked;
  }

  lemma VerifyTables(s: System, response: Response, session: Option<string>, now: int)
    requires Inv(s) && TablesKnown(s)
    ensures TablesKnown(AfterVerify(s, response, session, now))
  {
    hide Awaits, Redeemable, Unexpired, WithMark, HasAccepted, HasRedeemed, Inv, Marked, TablesKnown;
    var after, r := AfterVerify(s, response, session, now), VerifyIn(s.verifier, response, now).1;
    if r == Failure(Replayed) {
      assert after == s;
    } else if r.Failure? {
      SweepTables(s, after, now);
    } else {
      AcceptTables(s, response, session, now);
    }
  }

  lemma AcceptTables(s: System, response: Response, session: Option<string>, now: int)
    requires Inv(s) && TablesKnown(s) && VerifyIn(s.verifier, response, now).1.Success?
    ensures TablesKnown(AfterVerify(s, response, session, now))
  {
    hide Awaits, Redeemable, Unexpired, WithMark, HasAccepted, HasRedeemed, KeyOf, LogExplained, Marked, TablesKnown, TrustKnown,
         ConsumedKnown, TicketsKnown, IdsUsed;
    var after, c := AfterVerify(s, response, session, now), s.verifier.pending[response.challengeId];
    var e := after.log[|s.log|];
    assert e.Accepted? && e.challenge == c && e.authorization.verifiedAt == now;
    VerifierTablesLater(s, after, e);
  }

  lemma IssueTables(s: System, a: Action)
    requires Inv(s) && TablesKnown(s) && Enabled(s, a) && a.Issue?
    ensures TablesKnown(Next(s, a))
  {
    hide Awaits, Redeemable, Inv, Unexpired, HasAccepted, HasRedeemed;
    var after, r := Next(s, a), IssueIn(s.issuer, a.authorization, a.ttl, a.token, a.now).1;
    FreshIsUnknown(s, a.token);
    FreshIsNotPending(s, a.token);
    if r.Success? {
      IssuerTablesLater(s, after, Issued(r.value, a.authorization));
    }
  }

  lemma ConsumeTables(s: System, a: Action)
    requires Inv(s) && TablesKnown(s) && a.Consume?
    ensures TablesKnown(Next(s, a))
  {
    hide Awaits, Redeemable, Unexpired, WithMark, HasAccepted, HasRedeemed, KeyOf, LogExplained, Marked;
    var after, r := Next(s, a), ConsumeIn(s.issuer, a.token, a.operation, a.now).1;
    if r == Failure(TicketExpired) {
      IssuerTablesLater(s, after, IssuerSwept(a.now));
    } else if r.Failure? {
      assert after.log == s.log;
    } else {
      IssuerTablesLater(s, after, Redeemed(r.value, a.operation, a.now));
    }
  }

  lemma StepKeepsTables(s: System, a: Action)
    requires Inv(s) && TablesKnown(s) && Enabled(s, a)
    ensures TablesKnown(Next(s, a))
  {
    hide Awaits, Redeemable, HasAccepted, HasRedeemed, Inv, Enabled, CreateIn, VerifyIn, IssueIn, ConsumeIn;
    match a
    case Register(device, key) =>
      if IsIdentifier(device) {
        VerifierTablesLater(s, Next(s, a), Registered(device, key));
      }
    case Revoke(device) => VerifierTablesLater(s, Next(s, a), Revoked(device));
    case Create(_, _, _, _, _, _) => CreateTables(s, a);
    case Verify(response, now) => VerifyTables(s, response, None, now);
    case Authenticate(response, id, admitted, now) => VerifyTables(s, response, if admitted then Some(id) else None, now);
    case Issue(_, _, _, _) => IssueTables(s, a);
    case Consume(_, _, _) => ConsumeTables(s, a);
  }

  lemma {:induction false} BehaviourKeepsTables(systems: seq<System>, actions: seq<Action>, i: nat)
    requires Behaviour(systems, actions) && i < |systems|
    ensures Inv(systems[i]) && TablesKnown(systems[i])
  {
    hide Inv, TablesKnown, Next, Enabled;
    BehaviourKeepsInv(systems, actions, i);
    if i == 0 {
      NothingHeld(systems[0]);
    } else {
      BehaviourKeepsTables(systems, actions, i - 1);
      StepKeepsTables(systems[i - 1], actions[i - 1]);
    }
  }

  lemma NothingHeld(s: System)
    requires Init(s)
    ensures TablesKnown(s)
  {
  }

  // ----- Over every run -----

  /**
   * A ticket is redeemed exactly when it was issued, not redeemed since, not found expired by an earlier call, has not
   * expired now, and is redeemed for its own operation, which is always `unlock`. Each refusal of a ticket that is
   * still held has its own exact condition too.
   */
  lemma RedeemedExactly(systems: seq<System>, actions: seq<Action>, i: nat, token: string, operation: string, now: int, t: Ticket)
    requires Behaviour(systems, actions) && i < |systems|
    ensures var s := systems[i];
            var r := ConsumeIn(s.issuer, token, operation, now).1;
            && (r == Success(t) <==>
                  Redeemable(s.log, t) && t.token == token && now < t.expiresAt && operation == t.operation)
            && (Redeemable(s.log, t) ==> t.operation == "unlock")
            && (Redeemable(s.log, t) && t.token == token ==>
                  && (r == Failure(TicketExpired) <==> t.expiresAt <= now)
                  && (r == Failure(WrongOperation) <==> now < t.expiresAt && operation != "unlock"))
            && (r == Failure(TicketReplayed) ==> HasRedeemed(s.log, token))
  {
    hide Behaviour, KeyOf, Marked, RedeemableFrom, Awaits;
    BehaviourKeepsTables(systems, actions, i);
    if Redeemable(systems[i].log, t) {
      IssuedForUnlock(systems[i], t);
    }
  }

  lemma IssuedForUnlock(s: System, t: Ticket)
    requires Inv(s) && Redeemable(s.log, t)
    ensures t.operation == "unlock" && t.token != ""
  {
    hide KeyOf, IdsUsed, PendingKnown, TicketsKnown, TrustKnown, ConsumedKnown, HasIssued, HasRedeemed;
    var k: nat :| RedeemableFrom(s.log, k, t);
    assert Explained(s.verifier.skew, s.log[..k], s.log[k]);
  }

  /** What the holder of the device's key does with a challenge, in time. */
  ghost predicate Answers(log: seq<Entry>, skew: nat, response: Response, now: int, c: Challenge) {
    && Awaits(log, c) && response.challengeId == c.id && response.device == c.device
    && c.issuedAt - skew <= now < c.expiresAt
    && KeyOf(log, c.device).Some? && response.signature == SignedBy(KeyOf(log, c.device).value, c)
  }

  /**
   * A response is accepted exactly when its challenge was created, not accepted since, not found expired by an earlier
   * call and has not expired now, the device it names is the challenge's and still registered, and its signature
   * covers that challenge under the device's current key.
   */
  lemma AcceptedExactly(systems: seq<System>, actions: seq<Action>, i: nat, response: Response, now: int)
    requires Behaviour(systems, actions) && i < |systems|
    ensures var s := systems[i];
            var r := VerifyIn(s.verifier, response, now).1;
            && (r.Success? <==> exists c :: Answers(s.log, s.verifier.skew, response, now, c))
            && forall c :: Answers(s.log, s.verifier.skew, response, now, c) ==>
                 r == Success(Authorization(c.id, c.device, c.operation, now, c.expiresAt))
  {
    hide Behaviour, Inv, TablesKnown, Answers;
    BehaviourKeepsTables(systems, actions, i);
    Accepts(systems[i], response, now);
  }

  lemma Accepts(s: System, response: Response, now: int)
    requires Inv(s) && TablesKnown(s)
    ensures var r := VerifyIn(s.verifier, response, now).1;
            && (r.Success? <==> exists c :: Answers(s.log, s.verifier.skew, response, now, c))
            && forall c :: Answers(s.log, s.verifier.skew, response, now, c) ==>
                 r == Success(Authorization(c.id, c.device, c.operation, now, c.expiresAt))
  {
    hide KeyOf, Marked, Awaits, Redeemable, LogExplained, HasAccepted, IdsUsed, TicketsKnown;
    if VerifyIn(s.verifier, response, now).1.Success? {
      assert Answers(s.log, s.verifier.skew, response, now, s.verifier.pending[response.challengeId]);
    }
    forall c | Answers(s.log, s.verifier.skew, response, now, c)
      ensures VerifyIn(s.verifier, response, now).1 == Success(Authorization(c.id, c.device, c.operation, now, c.expiresAt))
    {
      assert s.verifier.pending[c.id] == c;
    }
  }

  /** The challenges a call at `now` finds pending. */
  function Live(pending: map<string, Challenge>, now: int): set<string> {
    set id | id in pending && now < pending[id].expiresAt
  }

  /**
   * A challenge is created exactly for a registered device, with a lifetime of one to sixty seconds, while fewer than
   * 256 unexpired challenges are pending, fewer than 8 of them the device's.
   */
  lemma CreatedExactly(systems: seq<System>, actions: seq<Action>, i: nat, device: string, operation: string, ttl: int,
                       id: string, nonce: string, now: int)
    requires Behaviour(systems, actions) && i < |systems|
    ensures var s := systems[i];
            var r := CreateIn(s.verifier, device, operation, ttl, id, nonce, now).1;
            var live := Live(s.verifier.pending, now);
            var own := set x | x in live && s.verifier.pending[x].device == device;
            && (r.Success? <==>
                  && IsIdentifier(device) && IsIdentifier(operation) && 1 <= ttl <= 60
                  && KeyOf(s.log, device).Some? && |live| < 256 && |own| < 8)
            && (r.Success? ==> r.value == Challenge(id, device, nonce, now, now + ttl, operation))
            && (r == Failure(BadValue) <==> !IsIdentifier(device) || !IsIdentifier(operation) || ttl < 1 || 60 < ttl)
            && (r == Failure(TooManyPending) ==> KeyOf(s.log, device).Some?)
            && forall c: Challenge :: c.id in live && s.verifier.pending[c.id] == c <==> Awaits(s.log, c) && now < c.expiresAt
  {
    hide Behaviour, KeyOf, Marked, Awaits, Redeemable, LogExplained, IsIdentifier, PendingKnown, TicketsKnown, Unexpired;
    BehaviourKeepsTables(systems, actions, i);
    var v := systems[i].verifier;
    var live := PrunedVerifier(v, now).pending;
    assert live.Keys == Live(v.pending, now);
    assert PendingFor(live, device) == set x | x in Live(v.pending, now) && v.pending[x].device == device;
  }

  /**
   * An authorization is exchanged for a ticket exactly when it is for unlocking, the lifetime is one to ten seconds and
   * the authorization has not expired; the ticket is its device's and outlives neither.
   */
  lemma IssuedExactly(systems: seq<System>, actions: seq<Action>, i: nat, a: Authorization, ttl: int, token: string, now: int)
    requires Behaviour(systems, actions) && i < |systems| && Enabled(systems[i], Issue(a, ttl, token, now))
    ensures var r := IssueIn(systems[i].issuer, a, ttl, token, now).1;
            var after := Next(systems[i], Issue(a, ttl, token, now));
            && (r.Success? <==> a.operation == "unlock" && 1 <= ttl <= 10 && now < a.expiresAt)
            && (r.Success? ==>
                  && r.value.token == token && r.value.device == a.device && r.value.operation == "unlock"
                  && r.value.issuedAt == now < r.value.expiresAt
                  && r.value.expiresAt <= now + ttl && r.value.expiresAt <= a.expiresAt
                  && (r.value.expiresAt == now + ttl || r.value.expiresAt == a.expiresAt)
                  && Redeemable(after.log, r.value))
  {
    hide Behaviour, Inv, Enabled, Awaits, Redeemable, Unexpired;
    BehaviourKeepsTables(systems, actions, i);
    StepKeepsTables(systems[i], Issue(a, ttl, token, now));
  }
}

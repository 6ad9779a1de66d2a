/**
 * One-use, expiring, session-owned confirmations (backend/pipa_core/confirmations.py).
 *
 * The functions say what one call does to the table of pending records; the class keeps the
 * table in a field and updates it in place. Clock readings and the random identifier are
 * parameters.
 */
module Confirmations {
  import opened Prelude

  const MAX_PENDING_CONFIRMATIONS := 128
  const MAX_PENDING_PER_OWNER := 4
  const MAX_TTL_SECONDS := 300

  /** Tool arguments, as canonical JSON text. */
  type Arguments = string

  /** What the caller of `create` supplies. */
  datatype Request = Request(
    tool: string,
    arguments: Arguments,
    summary: string,
    owner: Option<string>,
    callId: Option<string>,
    digest: Option<string>,
    execution: Option<Arguments>)

  datatype Pending = Pending(
    id: string,
    owner: Option<string>,
    tool: string,
    arguments: Arguments,
    summary: string,
    createdAt: int,
    expiresAt: int,
    callId: Option<string>,
    digest: Option<string>,
    execution: Option<Arguments>)

  datatype Error =
    | InvalidRequest
    | TooManyPending
    | TooManyForOwner
    | MissingOrExpired
    | WrongOwner

  type Table = map<string, Pending>

  predicate ValidDigest(digest: string) {
    |digest| == 64 && forall c :: c in digest ==> '0' <= c <= '9' || 'a' <= c <= 'f'
  }

  predicate Acceptable(request: Request) {
    && !Blank(request.summary)
    && (request.callId.Some? ==> !Blank(request.callId.value) && |request.callId.value| <= 128)
    && (request.digest.Some? ==> ValidDigest(request.digest.value))
  }

  function Minted(request: Request, id: string, ttl: int, now: int): Pending {
    Pending(id, request.owner, request.tool, request.arguments,
            if |request.summary| > 240 then request.summary[..240] else request.summary,
            now, now + ttl, request.callId, request.digest, request.execution)
  }

  function Unexpired(table: Table, now: int): Table {
    map id | id in table && now < table[id].expiresAt :: table[id]
  }

  function OwnedBy(table: Table, owner: string): set<string> {
    set id | id in table && table[id].owner == Some(owner)
  }

  /** `cancel_for_owner`. */
  function Cancelled(table: Table, owner: string): Table {
    if owner == "" then table else Without(table, owner)
  }

  function Without(table: Table, owner: string): Table {
    map id | id in table && table[id].owner != Some(owner) :: table[id]
  }

  /** Cancelling what a set of sessions owns; `cancel_for_owner` ignores the empty id. */
  function CancelAll(table: Table, owners: set<string>): Table {
    map id | id in table && (table[id].owner.None? || table[id].owner == Some("") || table[id].owner.value !in owners)
      :: table[id]
  }

  lemma CancelMore(table: Table, owners: set<string>, owner: string)
    ensures Cancelled(CancelAll(table, owners), owner) == CancelAll(table, owners + {owner})
    ensures Cancelled(table, owner) == CancelAll(table, {owner})
    ensures CancelAll(table, {}) == table
  {
  }

  function CreateIn(table: Table, ttl: int, request: Request, id: string, now: int): (Table, Result<Pending, Error>) {
    if !Acceptable(request) then (table, Failure(InvalidRequest))
    else
      var live := Unexpired(table, now);
      var record := Minted(request, id, ttl, now);
      if |live| >= MAX_PENDING_CONFIRMATIONS then (live, Failure(TooManyPending))
      else if request.owner.Some? && |OwnedBy(live, request.owner.value)| >= MAX_PENDING_PER_OWNER then
        (live, Failure(TooManyForOwner))
      else (live[id := record], Success(record))
  }

  function ConsumeFrom(table: Table, id: string, owner: Option<string>, now: int): (Table, Result<Pending, Error>) {
    if id !in table || now >= table[id].expiresAt then (table, Failure(MissingOrExpired))
    else if table[id].owner.Some? && table[id].owner != owner then (table, Failure(WrongOwner))
    else (table - {id}, Success(table[id]))
  }

  /** A record is handed out at most once: a second `consume` of the same id always fails. */
  lemma ConsumedOnce(table: Table, id: string, owner: Option<string>, now: int, owner': Option<string>, now': int)
    requires ConsumeFrom(table, id, owner, now).1.Success?
    ensures ConsumeFrom(ConsumeFrom(table, id, owner, now).0, id, owner', now') ==
            (ConsumeFrom(table, id, owner, now).0, Failure(MissingOrExpired))
  {
    assert id !in (table - {id});
  }

  /** `consume` succeeds for its owner strictly before `expires_at`, and in no other case. */
  lemma ConsumableExactlyUntilExpiry(table: Table, ttl: int, request: Request, id: string, created: int,
                                     owner: Option<string>, now: int)
    requires CreateIn(table, ttl, request, id, created).1.Success?
    ensures var after := CreateIn(table, ttl, request, id, created).0;
            ConsumeFrom(after, id, owner, now).1.Success? <==>
            now < created + ttl && (request.owner.None? || request.owner == owner)
  {
    assert id in CreateIn(table, ttl, request, id, created).0;
  }

  /**
   * A record is created if and only if the request has a visible summary, a usable call id and a lower-case SHA-256
   * digest (where it has them at all), and among the unexpired records there are fewer than 128, and fewer than four
   * of its owner. Its summary is cut at 240 characters and it lives for exactly the TTL.
   */
  lemma CreatesExactly(table: Table, ttl: int, request: Request, id: string, now: int)
    ensures var live := set k | k in table && now < table[k].expiresAt;
            var own := set k | k in live && table[k].owner == request.owner;
            var (after, created) := CreateIn(table, ttl, request, id, now);
            && (created.Success? <==>
                  && (exists c :: c in request.summary && !IsSpace(c))
                  && (request.callId.Some? ==> |request.callId.value| <= 128 && exists c :: c in request.callId.value && !IsSpace(c))
                  && (request.digest.Some? ==>
                        |request.digest.value| == 64 && forall c :: c in request.digest.value ==> c in "0123456789abcdef")
                  && |live| < 128 && (request.owner.Some? ==> |own| < 4))
            && (created.Success? ==>
                  && after.Keys == live + {id} && after[id] == created.value
                  && created.value == Pending(id, request.owner, request.tool, request.arguments,
                                              request.summary[..if |request.summary| > 240 then 240 else |request.summary|],
                                              now, now + ttl, request.callId, request.digest, request.execution))
            && (forall k :: k in after && (k != id || created.Failure?) ==> k in table && after[k] == table[k])
  {
    var live := set k | k in table && now < table[k].expiresAt;
    assert Unexpired(table, now).Keys == live && |Unexpired(table, now).Keys| == |Unexpired(table, now)|;
    assert request.owner.Some? ==>
             OwnedBy(Unexpired(table, now), request.owner.value) == set k | k in live && table[k].owner == request.owner;
    assert forall c: char :: c in "0123456789abcdef" <==> '0' <= c <= '9' || 'a' <= c <= 'f';
    assert request.summary[..|request.summary|] == request.summary;
  }

  /** Neither limit is ever exceeded. */
  lemma LimitsHold(table: Table, ttl: int, request: Request, id: string, now: int)
    requires |table| <= 128 && forall owner :: |OwnedBy(table, owner)| <= 4
    ensures var after := CreateIn(table, ttl, request, id, now).0;
            |after| <= 128 && forall owner :: |OwnedBy(after, owner)| <= 4
  {
    if Acceptable(request) {
      var live := Unexpired(table, now);
      var after := CreateIn(table, ttl, request, id, now).0;
      SubsetSize(live.Keys, table.Keys);
      assert |live.Keys| == |live| && |table.Keys| == |table|;
      SubsetSize(after.Keys, live.Keys + {id});
      assert |after.Keys| == |after|;
      forall owner
        ensures |OwnedBy(after, owner)| <= 4
      {
        SubsetSize(OwnedBy(live, owner), OwnedBy(table, owner));
        SubsetSize(OwnedBy(after, owner), OwnedBy(live, owner) + if request.owner == Some(owner) then {id} else {});
      }
    }
  }

  class ConfirmationManager {
    const ttl: int
    var pending: Table

    constructor (ttl: int)
      requires 1 <= ttl <= MAX_TTL_SECONDS
      ensures this.ttl == ttl && pending == map[]
    {
      this.ttl := ttl;
      pending := map[];
    }

    method Create(request: Request, id: string, now: int) returns (r: Result<Pending, Error>)
      modifies this
      ensures (pending, r) == CreateIn(old(pending), ttl, request, id, now)
    {
      if !Acceptable(request) {
        return Failure(InvalidRequest);
      }
      var record := Minted(request, id, ttl, now);
      Prune(now);
      if |pending| >= MAX_PENDING_CONFIRMATIONS {
        return Failure(TooManyPending);
      }
      if request.owner.Some? {
        var owned := OwnedBy(pending, request.owner.value);
        if |owned| >= MAX_PENDING_PER_OWNER {
          return Failure(TooManyForOwner);
        }
      }
      pending := pending[id := record];
      r := Success(record);
    }

    method Consume(id: string, owner: Option<string>, now: int) returns (r: Result<Pending, Error>)
      modifies this
      ensures (pending, r) == ConsumeFrom(old(pending), id, owner, now)
    {
      if id !in pending || now >= pending[id].expiresAt {
        return Failure(MissingOrExpired);
      }
      var record := pending[id];
      if record.owner.Some? && record.owner != owner {
        return Failure(WrongOwner);
      }
      pending := pending - {id};
      r := Success(record);
    }

    method CancelForOwner(owner: string) returns (count: nat)
      modifies this
      ensures pending == Cancelled(old(pending), owner)
      ensures count == if owner == "" then 0 else |OwnedBy(old(pending), owner)|
    {
      if owner == "" {
        return 0;
      }
      var cancelled := OwnedBy(pending, owner);
      RemoveAll(cancelled);
      count := |cancelled|;
    }

    method Prune(now: int)
      modifies this
      ensures pending == Unexpired(old(pending), now)
    {
      var expired := set id | id in pending && pending[id].expiresAt <= now;
      RemoveAll(expired);
    }

    /** The deletion loop both `cancel_for_owner` and `_prune` end with. */
    method RemoveAll(ids: set<string>)
      requires ids <= pending.Keys
      modifies this
      ensures pending == old(pending) - ids
    {
      var todo := ids;
      while todo != {}
        invariant todo <= ids
        invariant pending == old(pending) - (ids - todo)
        decreases todo
      {
        var id :| id in todo;
        pending := pending - {id};
        todo := todo - {id};
      }
    }
  }
}

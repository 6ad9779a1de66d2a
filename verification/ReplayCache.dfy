/**
 * The cache that keeps a client hello from being accepted twice (windows-agent/secure_session_server.py).
 *
 * The ordered dictionary is the sequence of its entries in insertion order. Time is a monotonic clock.
 */
module ReplayCache {
  import opened Prelude

  const MAX_USED_SESSION_IDS := 4096
  const SESSION_ID_REPLAY_TTL_SECONDS := 1800

  datatype Seen = Seen(id: string, at: int)

  datatype HelloError = NotPaired | AlreadyConsumed | BadSignature

  // ----- What one hello does -----

  /** The `while` loop: drop entries from the front until one is young enough. */
  function Pruned(used: seq<Seen>, cutoff: int): (rest: seq<Seen>)
    ensures |rest| <= |used| && rest == used[|used| - |rest|..]
    ensures forall k :: 0 <= k < |used| - |rest| ==> used[k].at <= cutoff
    ensures rest != [] ==> rest[0].at > cutoff
  {
    if used != [] && used[0].at <= cutoff then
      var rest := Pruned(used[1..], cutoff);
      assert used[1..][|used| - 1 - |rest|..] == used[|used| - |rest|..];
      assert forall k :: 1 <= k < |used| - |rest| ==> used[k] == used[1..][k - 1];
      rest
    else used
  }

  predicate HasId(used: seq<Seen>, id: string) {
    exists k :: 0 <= k < |used| && used[k].id == id
  }

  function Refusal(used: seq<Seen>, id: string, paired: bool, signed: bool, now: int): Option<HelloError> {
    if !paired then Some(NotPaired)
    else if HasId(Pruned(used, now - SESSION_ID_REPLAY_TTL_SECONDS), id) then Some(AlreadyConsumed)
    else if !signed then Some(BadSignature)
    else None
  }

  function Remembered(used: seq<Seen>, id: string, now: int): seq<Seen> {
    (if |used| >= MAX_USED_SESSION_IDS then used[1..] else used) + [Seen(id, now)]
  }

  function Accepting(used: seq<Seen>, id: string, paired: bool, signed: bool, now: int): seq<Seen> {
    var live := Pruned(used, now - SESSION_ID_REPLAY_TTL_SECONDS);
    match Refusal(used, id, paired, signed, now)
    case None => Remembered(live, id, now)
    case Some(NotPaired) => used
    case _ => live
  }

  // ----- The cache against everything ever accepted -----

  predicate Sorted(s: seq<Seen>) {
    forall i, j :: 0 <= i < j < |s| ==> s[i].at <= s[j].at
  }

  predicate DistinctIds(s: seq<Seen>) {
    forall i, j :: 0 <= i < j < |s| ==> s[i].id != s[j].id
  }

  /** The `i`th acceptance and the 4096 after it are of pairwise different ids. */
  predicate Crowded(accepted: seq<Seen>, i: nat) {
    i + MAX_USED_SESSION_IDS < |accepted| && DistinctIds(accepted[i..i + MAX_USED_SESSION_IDS + 1])
  }

  /** An entry leaves the cache only when it is old enough or crowded out. */
  predicate CacheInv(used: seq<Seen>, accepted: seq<Seen>, now: int) {
    && |used| <= MAX_USED_SESSION_IDS && |used| <= |accepted|
    && used == accepted[|accepted| - |used|..] && DistinctIds(used)
    && Sorted(accepted) && (accepted != [] ==> accepted[|accepted| - 1].at <= now)
    && forall i :: 0 <= i < |accepted| - |used| ==>
         accepted[i].at + SESSION_ID_REPLAY_TTL_SECONDS <= now || Crowded(accepted, i)
  }

  /** The whole cache filtered by age. */
  function Younger(used: seq<Seen>, cutoff: int): seq<Seen> {
    if used == [] then []
    else (if used[0].at > cutoff then [used[0]] else []) + Younger(used[1..], cutoff)
  }

  lemma {:induction false} AllYounger(used: seq<Seen>, cutoff: int)
    requires Sorted(used) && (used != [] ==> used[0].at > cutoff)
    ensures Younger(used, cutoff) == used
  {
    if used != [] {
      AllYounger(used[1..], cutoff);
    }
  }

  /** Because the cache stays sorted by time, popping from the front is filtering by age. */
  lemma {:induction false} PrunedIsFilter(used: seq<Seen>, cutoff: int)
    requires Sorted(used)
    ensures Pruned(used, cutoff) == Younger(used, cutoff)
  {
    if used != [] && used[0].at <= cutoff {
      PrunedIsFilter(used[1..], cutoff);
    } else {
      AllYounger(used, cutoff);
    }
  }

  lemma PruneKeeps(used: seq<Seen>, accepted: seq<Seen>, before: int, now: int)
    requires CacheInv(used, accepted, before) && before <= now
    ensures CacheInv(Pruned(used, now - SESSION_ID_REPLAY_TTL_SECONDS), accepted, now)
  {
    hide Crowded, Pruned, Sorted;
    var rest := Pruned(used, now - SESSION_ID_REPLAY_TTL_SECONDS);
    var n, gone := |accepted|, |used| - |rest|;
    assert rest == accepted[n - |rest|..];
    forall i | 0 <= i < n - |rest|
      ensures accepted[i].at + SESSION_ID_REPLAY_TTL_SECONDS <= now || Crowded(accepted, i)
    {
      if i >= n - |used| {
        assert accepted[i] == used[i - (n - |used|)];
      }
    }
  }

  lemma LaterClock(used: seq<Seen>, accepted: seq<Seen>, before: int, now: int)
    requires CacheInv(used, accepted, before) && before <= now
    ensures CacheInv(used, accepted, now)
  {
    hide Crowded, Sorted, DistinctIds;
  }

  lemma CrowdedLater(accepted: seq<Seen>, i: nat, e: Seen)
    requires Crowded(accepted, i)
    ensures Crowded(accepted + [e], i)
  {
    assert (accepted + [e])[i..i + MAX_USED_SESSION_IDS + 1] == accepted[i..i + MAX_USED_SESSION_IDS + 1];
  }

  lemma RememberKeeps(used: seq<Seen>, accepted: seq<Seen>, id: string, now: int)
    requires CacheInv(used, accepted, now) && !HasId(used, id)
    ensures CacheInv(Remembered(used, id, now), accepted + [Seen(id, now)], now)
  {
    hide Crowded, Sorted, DistinctIds, HasId, Remembered;
    var e := Seen(id, now);
    var after, longer := Remembered(used, id, now), accepted + [e];
    RememberedIsSuffix(used, accepted, e);
    SortedAppend(accepted, e);
    DistinctAppend(used, e);
    forall i | 0 <= i < |longer| - |after|
      ensures longer[i].at + SESSION_ID_REPLAY_TTL_SECONDS <= now || Crowded(longer, i)
    {
      GoneForAReason(used, accepted, e, i);
    }
  }

  lemma GoneForAReason(used: seq<Seen>, accepted: seq<Seen>, e: Seen, i: nat)
    requires CacheInv(used, accepted, e.at) && DistinctIds(used + [e])
    requires i < |accepted| - |used| || (|used| == MAX_USED_SESSION_IDS && i == |accepted| - |used|)
    ensures i < |accepted| && (accepted[i].at + SESSION_ID_REPLAY_TTL_SECONDS <= e.at || Crowded(accepted + [e], i))
  {
    hide Crowded, Sorted, DistinctIds;
    if i == |accepted| - |used| {
      CrowdedOut(used, accepted, e);
    } else if Crowded(accepted, i) {
      CrowdedLater(accepted, i, e);
    }
  }

  lemma RememberedIsSuffix(used: seq<Seen>, accepted: seq<Seen>, e: Seen)
    requires |used| <= |accepted| && |used| <= MAX_USED_SESSION_IDS && used == accepted[|accepted| - |used|..]
    ensures var after := Remembered(used, e.id, e.at);
            && |after| <= |used| + 1 && |after| <= MAX_USED_SESSION_IDS && after == (accepted + [e])[|accepted| + 1 - |after|..]
            && (|after| == |used| ==> |used| == MAX_USED_SESSION_IDS) && (|after| != |used| ==> |after| == |used| + 1)
            && after == (if |used| >= MAX_USED_SESSION_IDS then used[1..] else used) + [e]
  {
  }

  lemma SortedAppend(s: seq<Seen>, e: Seen)
    requires Sorted(s) && (s != [] ==> s[|s| - 1].at <= e.at)
    ensures Sorted(s + [e])
  {
  }

  lemma DistinctAppend(s: seq<Seen>, e: Seen)
    requires DistinctIds(s) && !HasId(s, e.id)
    ensures DistinctIds(s + [e])
    ensures s != [] ==> DistinctIds(s[1..] + [e])
  {
  }

  /** The entry evicted from a full cache was followed by 4096 other ids. */
  lemma CrowdedOut(used: seq<Seen>, accepted: seq<Seen>, e: Seen)
    requires |used| == MAX_USED_SESSION_IDS <= |accepted| && used == accepted[|accepted| - |used|..]
    requires DistinctIds(used + [e])
    ensures Crowded(accepted + [e], |accepted| - |used|)
  {
    var i := |accepted| - |used|;
    assert (accepted + [e])[i..i + MAX_USED_SESSION_IDS + 1] == used + [e];
  }

  /** An id that is not in the cache was accepted long ago or before 4096 other ids, or never. */
  predicate FarApart(accepted: seq<Seen>, id: string, now: int) {
    forall i :: 0 <= i < |accepted| && accepted[i].id == id ==>
      accepted[i].at + SESSION_ID_REPLAY_TTL_SECONDS <= now || Crowded(accepted, i)
  }

  lemma NotCachedIsFar(used: seq<Seen>, accepted: seq<Seen>, id: string, now: int)
    requires CacheInv(used, accepted, now) && !HasId(used, id)
    ensures FarApart(accepted, id, now)
  {
    hide Crowded;
    var gone := |accepted| - |used|;
    assert forall i :: gone <= i < |accepted| ==> accepted[i] == used[i - gone];
  }

  // ----- Acceptances of one id -----

  /** Two acceptances of one id are half an hour apart, or 4096 other ids were accepted in between. */
  predicate AcceptedApart(accepted: seq<Seen>) {
    forall i, j :: 0 <= i < j < |accepted| && accepted[i].id == accepted[j].id ==>
      accepted[j].at - accepted[i].at >= SESSION_ID_REPLAY_TTL_SECONDS || (Crowded(accepted, i) && i + MAX_USED_SESSION_IDS < j)
  }

  lemma ApartOneMore(accepted: seq<Seen>, id: string, now: int)
    requires AcceptedApart(accepted) && FarApart(accepted, id, now)
    ensures AcceptedApart(accepted + [Seen(id, now)])
  {
    hide Crowded;
    var longer := accepted + [Seen(id, now)];
    forall i, j | 0 <= i < j < |longer| && longer[i].id == longer[j].id
      ensures longer[j].at - longer[i].at >= SESSION_ID_REPLAY_TTL_SECONDS || (Crowded(longer, i) && i + MAX_USED_SESSION_IDS < j)
    {
      if Crowded(accepted, i) {
        CrowdedLater(accepted, i, Seen(id, now));
        CrowdedLength(accepted, i);
      }
    }
  }

  lemma CrowdedLength(accepted: seq<Seen>, i: nat)
    ensures Crowded(accepted, i) ==> i + MAX_USED_SESSION_IDS < |accepted|
  {
  }

  // ----- Every run of hellos -----

  /** One call, with the outcome of the trust lookup and of the signature check, and its refusal. */
  datatype Hello = Hello(id: string, paired: bool, signed: bool, at: int, refusal: Option<HelloError>)

  /** The cache after these calls. */
  function Used(hellos: seq<Hello>): seq<Seen> {
    if hellos == [] then []
    else
      var h := hellos[|hellos| - 1];
      Accepting(Used(hellos[..|hellos| - 1]), h.id, h.paired, h.signed, h.at)
  }

  function Acceptances(hellos: seq<Hello>): seq<Seen> {
    if hellos == [] then []
    else
      var h := hellos[|hellos| - 1];
      Acceptances(hellos[..|hellos| - 1]) + if h.refusal.None? then [Seen(h.id, h.at)] else []
  }

  /** Calls on one server, from its start, under a clock that does not go back. */
  predicate Run(hellos: seq<Hello>) {
    hellos != [] ==>
      var rest, h := hellos[..|hellos| - 1], hellos[|hellos| - 1];
      Run(rest) && Latest(rest, h.at) && h.refusal == Refusal(Used(rest), h.id, h.paired, h.signed, h.at)
  }

  predicate Latest(hellos: seq<Hello>, now: int) {
    hellos != [] ==> hellos[|hellos| - 1].at <= now
  }

  /** The id was accepted less than half an hour ago, and by one of the last 4096 acceptances. */
  predicate Consumed(accepted: seq<Seen>, id: string, now: int) {
    exists i :: 0 <= i < |accepted| && |accepted| - 4096 <= i && accepted[i].id == id && now < accepted[i].at + 1800
  }

  lemma {:induction false} RunKeeps(hellos: seq<Hello>, now: int)
    requires Run(hellos) && Latest(hellos, now)
    ensures CacheInv(Used(hellos), Acceptances(hellos), now) && AcceptedApart(Acceptances(hellos))
    decreases |hellos|
  {
    hide CacheInv, AcceptedApart, Accepting, Refusal;
    if hellos == [] {
      NothingAccepted(now);
    } else {
      var rest, h := hellos[..|hellos| - 1], hellos[|hellos| - 1];
      RunKeeps(rest, h.at);
      HelloKeeps(Used(rest), Acceptances(rest), h);
      assert Acceptances(rest) + [] == Acceptances(rest);
      LaterClock(Used(hellos), Acceptances(hellos), h.at, now);
    }
  }

  lemma HelloKeeps(used: seq<Seen>, accepted: seq<Seen>, h: Hello)
    requires CacheInv(used, accepted, h.at) && AcceptedApart(accepted)
    requires h.refusal == Refusal(used, h.id, h.paired, h.signed, h.at)
    ensures var more := if h.refusal.None? then accepted + [Seen(h.id, h.at)] else accepted;
            CacheInv(Accepting(used, h.id, h.paired, h.signed, h.at), more, h.at) && AcceptedApart(more)
  {
    hide CacheInv, FarApart, AcceptedApart, HasId, Pruned, Remembered;
    var live := Pruned(used, h.at - SESSION_ID_REPLAY_TTL_SECONDS);
    PruneKeeps(used, accepted, h.at, h.at);
    if h.refusal.None? {
      NotCachedIsFar(live, accepted, h.id, h.at);
      RememberKeeps(live, accepted, h.id, h.at);
      ApartOneMore(accepted, h.id, h.at);
    }
  }

  lemma NothingAccepted(now: int)
    ensures CacheInv([], [], now) && AcceptedApart([])
  {
  }

  /** After pruning, the cache holds an id exactly when the acceptances say so. */
  lemma LiveExactly(used: seq<Seen>, accepted: seq<Seen>, id: string, now: int)
    requires CacheInv(used, accepted, now)
    ensures HasId(Pruned(used, now - SESSION_ID_REPLAY_TTL_SECONDS), id) <==> Consumed(accepted, id, now)
  {
    hide CacheInv, Pruned, Sorted;
    if HasId(Pruned(used, now - SESSION_ID_REPLAY_TTL_SECONDS), id) {
      LiveIsConsumed(used, accepted, id, now);
    }
    if Consumed(accepted, id, now) {
      ConsumedIsLive(used, accepted, id, now);
    }
  }

  lemma LiveIsConsumed(used: seq<Seen>, accepted: seq<Seen>, id: string, now: int)
    requires CacheInv(used, accepted, now) && HasId(Pruned(used, now - SESSION_ID_REPLAY_TTL_SECONDS), id)
    ensures Consumed(accepted, id, now)
  {
    hide DistinctIds, Crowded, Pruned;
    var live := Pruned(used, now - SESSION_ID_REPLAY_TTL_SECONDS);
    var k :| 0 <= k < |live| && live[k].id == id;
    var gone := |accepted| - |live|;
    assert accepted[gone] == live[0] && accepted[gone + k] == live[k];
  }

  lemma ConsumedIsLive(used: seq<Seen>, accepted: seq<Seen>, id: string, now: int)
    requires CacheInv(used, accepted, now) && Consumed(accepted, id, now)
    ensures HasId(Pruned(used, now - SESSION_ID_REPLAY_TTL_SECONDS), id)
  {
    hide DistinctIds, Crowded, Pruned, Sorted;
    var live, n, m := Pruned(used, now - SESSION_ID_REPLAY_TTL_SECONDS), |accepted|, |used|;
    var i :| 0 <= i < n && n - 4096 <= i && accepted[i].id == id && now < accepted[i].at + 1800;
    if i < n - m {
      CrowdedLength(accepted, i);
    }
    var k := i - (n - m);
    assert used[k] == accepted[i];
    assert live[k - (m - |live|)] == used[k];
  }

  /**
   * Every hello of every run is accepted exactly when its device is paired, its signature is good, and its id was not
   * accepted within the last half hour and among the last 4096; each refusal has its own exact condition.
   */
  lemma JudgedExactly(hellos: seq<Hello>, h: Hello)
    requires Run(hellos + [h])
    ensures var consumed := Consumed(Acceptances(hellos), h.id, h.at);
            && (h.refusal.None? <==> h.paired && h.signed && !consumed)
            && (h.refusal == Some(NotPaired) <==> !h.paired)
            && (h.refusal == Some(AlreadyConsumed) <==> h.paired && consumed)
            && (h.refusal == Some(BadSignature) <==> h.paired && !consumed && !h.signed)
  {
    hide CacheInv, HasId, Pruned, Consumed;
    assert (hellos + [h])[..|hellos|] == hellos;
    RunKeeps(hellos, h.at);
    LiveExactly(Used(hellos), Acceptances(hellos), h.id, h.at);
  }

  /** Whatever was accepted in a run was paired and signed, and replays nothing. */
  lemma {:induction false} AcceptedWereProved(hellos: seq<Hello>, k: nat)
    requires Run(hellos) && k < |hellos| && hellos[k].refusal.None?
    ensures hellos[k].paired && hellos[k].signed && !Consumed(Acceptances(hellos[..k]), hellos[k].id, hellos[k].at)
    decreases |hellos|
  {
    hide Consumed, Refusal, Acceptances, Used;
    var rest := hellos[..|hellos| - 1];
    assert hellos == rest + [hellos[|hellos| - 1]];
    if k == |rest| {
      JudgedExactly(rest, hellos[k]);
    } else {
      assert hellos[..k] == rest[..k];
      AcceptedWereProved(rest, k);
    }
  }

  // ----- The server -----

  class SecureSessionServer {
    var usedSessionIds: seq<Seen>
    /** Every call so far. */
    ghost var hellos: seq<Hello>

    ghost predicate Valid()
      reads this
    {
      Run(hellos) && usedSessionIds == Used(hellos)
    }

    constructor ()
      ensures Valid() && hellos == []
    {
      usedSessionIds, hellos := [], [];
    }

    method PopExpired(cutoff: int)
      modifies this`usedSessionIds
      ensures usedSessionIds == Pruned(old(usedSessionIds), cutoff)
    {
      while usedSessionIds != [] && usedSessionIds[0].at <= cutoff
        invariant Pruned(usedSessionIds, cutoff) == Pruned(old(usedSessionIds), cutoff)
        decreases |usedSessionIds|
      {
        usedSessionIds := usedSessionIds[1..];
      }
    }

    /** `accept_client_hello`, from the trust lookup on. */
    method AcceptClientHello(id: string, paired: bool, signed: bool, now: int) returns (refusal: Option<HelloError>)
      requires Valid() && Latest(hellos, now)
      modifies this
      ensures Valid() && hellos == old(hellos) + [Hello(id, paired, signed, now, refusal)]
      ensures refusal.None? <==> paired && signed && !Consumed(Acceptances(old(hellos)), id, now)
      ensures refusal == Some(NotPaired) <==> !paired
      ensures refusal == Some(AlreadyConsumed) <==> paired && Consumed(Acceptances(old(hellos)), id, now)
    {
      hide HasId, Pruned, Consumed;
      refusal := Judge(id, paired, signed, now);
      ghost var h := Hello(id, paired, signed, now, refusal);
      assert (hellos + [h])[..|hellos|] == hellos;
      JudgedExactly(hellos, h);
      hellos := hellos + [h];
    }

    method Judge(id: string, paired: bool, signed: bool, now: int) returns (refusal: Option<HelloError>)
      modifies this`usedSessionIds
      ensures refusal == Refusal(old(usedSessionIds), id, paired, signed, now)
      ensures usedSessionIds == Accepting(old(usedSessionIds), id, paired, signed, now)
    {
      hide HasId, Pruned;
      if !paired {
        return Some(NotPaired);
      }
      PopExpired(now - SESSION_ID_REPLAY_TTL_SECONDS);
      if HasId(usedSessionIds, id) {
        return Some(AlreadyConsumed);
      }
      if !signed {
        return Some(BadSignature);
      }
      if |usedSessionIds| >= MAX_USED_SESSION_IDS {
        usedSessionIds := usedSessionIds[1..];
      }
      usedSessionIds := usedSessionIds + [Seen(id, now)];
      refusal := None;
    }
  }
}

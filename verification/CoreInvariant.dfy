/**
 * What every call keeps true of the Core's sessions and pending confirmations, under a clock
 * that never runs backwards.
 */
module CoreInvariant {
  import opened Prelude
  import opened Confirmations
  import opened Sessions
  import opened Tools
  import opened Core
  import opened CoreEvents

  /** The session behind an unexpired record is live, waiting for the answer, and able to ask. */
  ghost predicate Backed(core: State, record: Pending) {
    && record.owner.Some?
    && record.owner.value in core.sessions
    && var session := core.sessions[record.owner.value];
       && session.state == Confirm
       && session.capabilitiesInitialized
       && CanConfirm(session.capabilities)
       && record.expiresAt <= session.lastSeen + MAX_SESSION_IDLE_SECONDS
  }

  ghost predicate Unique(core: State, now: int) {
    forall a, b ::
      (&& a in core.pending && now < core.pending[a].expiresAt
       && b in core.pending && now < core.pending[b].expiresAt
       && core.pending[a].owner == core.pending[b].owner) ==> a == b
  }

  ghost predicate CoreInv(core: State, now: int) {
    && |core.sessions| <= MAX_SESSIONS
    && "" !in core.sessions
    && (forall id :: id in core.sessions ==> core.sessions[id].lastSeen <= now)
    && (forall id :: id in core.pending ==> core.pending[id].id == id)
    && (forall id :: id in core.pending ==> core.pending[id].owner.Some? && core.pending[id].owner != Some(""))
    && (forall id :: id in core.pending && now < core.pending[id].expiresAt ==> Backed(core, core.pending[id]))
    && Unique(core, now)
  }

  /** Nothing this session owns can still be confirmed. */
  ghost predicate Clear(core: State, id: string, now: int) {
    forall k :: k in core.pending && now < core.pending[k].expiresAt ==> core.pending[k].owner != Some(id)
  }

  /** One call reads the clock forwards and lasts at most 900 s minus the confirmation TTL. */
  ghost predicate Timely(config: Config, clock: Clock, now: int) {
    && 1 <= config.ttl <= MAX_TTL_SECONDS
    && now <= clock.prune <= clock.touch <= clock.act
    && clock.act + config.ttl <= clock.touch + MAX_SESSION_IDLE_SECONDS
  }

  lemma NotAskingIsClear(core: State, id: string, now: int)
    requires CoreInv(core, now)
    requires id in core.sessions && core.sessions[id].state != Confirm
    ensures Clear(core, id, now)
  {
  }

  lemma TimePasses(core: State, now: int, later: int)
    requires CoreInv(core, now) && now <= later
    ensures CoreInv(core, later)
  {
  }

  lemma UpdateSize(sessions: SessionMap, id: string, session: Session)
    requires id in sessions
    ensures |sessions[id := session]| == |sessions|
  {
    assert sessions[id := session].Keys == sessions.Keys;
    assert |sessions[id := session].Keys| == |sessions.Keys|;
  }

  lemma FewerSize(sessions: SessionMap, ids: set<string>)
    ensures |sessions - ids| <= |sessions|
  {
    assert (sessions - ids).Keys <= sessions.Keys;
    SubsetSize((sessions - ids).Keys, sessions.Keys);
    assert |(sessions - ids).Keys| == |sessions - ids| && |sessions.Keys| == |sessions|;
  }

  /** Idle sessions go together with what they own; other records are untouched. */
  lemma PruneStaleKeeps(core: State, now: int, at: int)
    requires CoreInv(core, now) && now <= at
    ensures CoreInv(PruneStale(core, at), at)
  {
    var stale := StaleIds(core.sessions, at);
    FewerSize(core.sessions, stale);
    var after := PruneStale(core, at);
    forall id | id in after.pending && at < after.pending[id].expiresAt
      ensures Backed(after, after.pending[id])
    {
      assert Backed(core, core.pending[id]);
    }
  }

  lemma TouchedKeeps(core: State, id: string, now: int, at: int)
    requires CoreInv(core, now) && now <= at && id in core.sessions
    ensures CoreInv(Touched(core, id, at), at)
  {
    var after := Touched(core, id, at);
    UpdateSize(core.sessions, id, after.sessions[id]);
    forall k | k in after.pending && at < after.pending[k].expiresAt
      ensures Backed(after, after.pending[k])
    {
      assert Backed(core, core.pending[k]);
    }
  }

  lemma InStateKeeps(core: State, id: string, ui: UiState, now: int)
    requires CoreInv(core, now) && id in core.sessions && Clear(core, id, now)
    ensures CoreInv(InState(core, id, ui), now) && Clear(InState(core, id, ui), id, now)
  {
    var after := InState(core, id, ui);
    UpdateSize(core.sessions, id, after.sessions[id]);
    forall k | k in after.pending && now < after.pending[k].expiresAt
      ensures Backed(after, after.pending[k])
    {
      assert Backed(core, core.pending[k]);
    }
  }

  /** Removing records, whichever they are, breaks nothing. */
  lemma FewerKeeps(core: State, table: Table, now: int)
    requires CoreInv(core, now)
    requires forall k :: k in table ==> k in core.pending && table[k] == core.pending[k]
    ensures CoreInv(core.(pending := table), now)
    ensures forall id :: Clear(core, id, now) ==> Clear(core.(pending := table), id, now)
  {
    var after := core.(pending := table);
    forall k | k in after.pending && now < after.pending[k].expiresAt
      ensures Backed(after, after.pending[k])
    {
      assert Backed(core, core.pending[k]);
    }
  }

  /**
   * Neither the 128-record nor the 4-per-session limit can refuse a session that is not
   * already waiting: at most one record per live session is unexpired, and it has none.
   */
  lemma LimitsNeverFire(core: State, ttl: int, request: Request, freshId: string, now: int)
    requires CoreInv(core, now)
    requires request.owner.Some? && request.owner.value in core.sessions
    requires Clear(core, request.owner.value, now)
    requires Acceptable(request)
    ensures CreateIn(core.pending, ttl, request, freshId, now).1.Success?
  {
    var live := Unexpired(core.pending, now);
    var owners := map k | k in live :: live[k].owner.value;
    InjectionSize(live.Keys, core.sessions.Keys, owners) by {
      assert live.Keys <= owners.Keys;
      forall k | k in live.Keys
        ensures owners[k] in core.sessions.Keys
      {
        assert Backed(core, core.pending[k]);
      }
    }
    assert |live.Keys| == |live| && |core.sessions.Keys| == |core.sessions|;
    assert OwnedBy(live, request.owner.value) == {};
  }

  /** The one step that adds a record leaves its session waiting for exactly that record. */
  lemma RecordKeeps(core: State, id: string, record: Pending, now: int)
    requires CoreInv(core, now) && id in core.sessions && Clear(core, id, now)
    requires core.sessions[id].capabilitiesInitialized && CanConfirm(core.sessions[id].capabilities)
    requires record.owner == Some(id) && record.expiresAt <= core.sessions[id].lastSeen + MAX_SESSION_IDLE_SECONDS
    ensures CoreInv(InState(core.(pending := Unexpired(core.pending, now)[record.id := record]), id, Confirm), now)
  {
    var live := Unexpired(core.pending, now);
    FewerKeeps(core, live, now);
    InStateKeeps(core.(pending := live), id, Confirm, now);
    var asking := InState(core.(pending := live), id, Confirm);
    var after := InState(core.(pending := live[record.id := record]), id, Confirm);
    assert Backed(asking, record);
    AddRecordKeeps(asking, after, record, now);
  }

  lemma AddRecordKeeps(core: State, after: State, record: Pending, now: int)
    requires CoreInv(core, now) && Backed(core, record) && Clear(core, record.owner.value, now)
    requires record.owner != Some("")
    requires after.sessions == core.sessions && after.pending == core.pending[record.id := record]
    ensures CoreInv(after, now)
  {
    forall k | k in after.pending && now < after.pending[k].expiresAt
      ensures Backed(after, after.pending[k])
    {
      assert k != record.id ==> Backed(core, core.pending[k]);
    }
  }

  lemma InvokeToolKeeps(config: Config, core: State, id: string, tool: string, arguments: Arguments,
                        callId: Option<string>, digest: Option<string>, env: Env)
    requires CoreInv(core, env.clock.act) && id in core.sessions && Clear(core, id, env.clock.act)
    requires Timely(config, env.clock, env.clock.prune)
    requires core.sessions[id].lastSeen == env.clock.touch
    requires core.sessions[id].capabilitiesInitialized
    requires tool in config.catalog && config.catalog[tool] == Unsafe ==> CanConfirm(core.sessions[id].capabilities)
    requires env.freshId !in core.pending
    ensures CoreInv(InvokeToolIn(config, core, id, tool, arguments, callId, digest, env).state, env.clock.act)
  {
    hide InvokeIn, CoreInv, Clear, CanConfirm;
    var now := env.clock.act;
    var (table, invocation, events) :=
      InvokeIn(core.pending, config.catalog, config.ttl, tool, None, Some(id), callId, digest,
               env.callbacks, env.freshId, now);
    InvokeCases(core.pending, config.catalog, config.ttl, tool, Some(id), callId, digest, env.callbacks, env.freshId, now);
    if invocation.NeedsConfirmation? {
      RecordKeeps(core, id, invocation.record, now);
    } else {
      FewerKeeps(core, table, now);
      InStateKeeps(core.(pending := table), id, Idle, now);
    }
  }

  lemma RunToolKeeps(config: Config, core: State, id: string, tool: string, arguments: Arguments,
                     callId: Option<string>, digest: Option<string>, env: Env)
    requires CoreInv(core, env.clock.touch) && id in core.sessions && core.sessions[id].state != Confirm
    requires Timely(config, env.clock, env.clock.prune)
    requires core.sessions[id].lastSeen == env.clock.touch
    requires core.sessions[id].capabilitiesInitialized
    requires env.freshId !in core.pending
    ensures CoreInv(RunToolIn(config, core, id, tool, arguments, callId, digest, env).state, env.clock.act)
  {
    var now := env.clock.act;
    TimePasses(core, env.clock.touch, now);
    NotAskingIsClear(core, id, now);
    var thinking := InState(core, id, Thinking);
    InStateKeeps(core, id, Thinking, now);
    InStateKeeps(thinking, id, Idle, now);
    if tool in config.catalog && config.catalog[tool] == Unsafe && !CanConfirm(core.sessions[id].capabilities) {
    } else {
      InvokeToolKeeps(config, thinking, id, tool, arguments, callId, digest, env);
    }
  }

  lemma RouteTranscriptKeeps(config: Config, core: State, id: string, env: Env)
    requires CoreInv(core, env.clock.touch) && id in core.sessions && core.sessions[id].state != Confirm
    requires Timely(config, env.clock, env.clock.prune)
    requires core.sessions[id].lastSeen == env.clock.touch
    requires core.sessions[id].capabilitiesInitialized
    requires env.freshId !in core.pending
    ensures CoreInv(RouteTranscriptIn(config, core, id, env).state, env.clock.act)
  {
    if env.intent.Recognized? {
      RunToolKeeps(config, core, id, env.intent.tool, env.intent.arguments, None, None, env);
    } else {
      TimePasses(core, env.clock.touch, env.clock.act);
      NotAskingIsClear(core, id, env.clock.act);
      InStateKeeps(core, id, Idle, env.clock.act);
    }
  }

  /** Cancelling leaves the session with nothing to confirm. */
  lemma CancelKeeps(core: State, id: string, now: int)
    requires CoreInv(core, now) && id in core.sessions
    ensures CoreInv(Cancel(core, id), now) && Clear(Cancel(core, id), id, now)
  {
    FewerKeeps(core, Cancelled(core.pending, id), now);
  }

  lemma ResolveKeeps(config: Config, core: State, id: string, confirmation: string, accepted: bool, env: Env)
    requires CoreInv(core, env.clock.touch) && id in core.sessions
    requires env.clock.touch <= env.clock.act
    ensures CoreInv(ResolveMessage(config, core, id, confirmation, accepted, env).state, env.clock.act)
  {
    var now := env.clock.act;
    TimePasses(core, env.clock.touch, now);
    var (table, resolution, events) :=
      ResolveIn(core.pending, config.catalog, confirmation, accepted, Some(id), env.callbacks, now);
    var after := core.(pending := table);
    FewerKeeps(core, table, now);
    if resolution.ResolutionFailed? {
      CancelKeeps(after, id, now);
      InStateKeeps(Cancel(after, id), id, Idle, now);
    } else {
      InStateKeeps(after, id, Idle, now);
    }
  }

  lemma RequestKeeps(config: Config, core: State, id: string, message: ClientMessage, env: Env)
    requires CoreInv(core, env.clock.touch) && id in core.sessions
    requires Timely(config, env.clock, env.clock.prune)
    requires core.sessions[id].lastSeen == env.clock.touch
    requires core.sessions[id].capabilitiesInitialized || message.Abort?
    requires core.sessions[id].state != Confirm || message.Abort? || message.Confirmation?
    requires env.freshId !in core.pending
    ensures CoreInv(RequestIn(config, core, id, message, env).state, env.clock.act)
  {
    hide RunToolIn, RouteTranscriptIn, ResolveMessage;
    var now := env.clock.act;
    TimePasses(core, env.clock.touch, now);
    if message.Abort? {
      CancelKeeps(core, id, now);
      InStateKeeps(Cancel(core, id), id, Idle, now);
    } else if message.Confirmation? {
      ResolveKeeps(config, core, id, message.id, message.accepted, env);
    } else {
      OrderKeeps(config, core, id, message, env);
    }
  }

  lemma OrderKeeps(config: Config, core: State, id: string, message: ClientMessage, env: Env)
    requires CoreInv(core, env.clock.touch) && id in core.sessions
    requires Timely(config, env.clock, env.clock.prune)
    requires core.sessions[id].lastSeen == env.clock.touch
    requires core.sessions[id].capabilitiesInitialized && core.sessions[id].state != Confirm
    requires !message.Abort? && !message.Confirmation?
    requires env.freshId !in core.pending
    ensures CoreInv(RequestIn(config, core, id, message, env).state, env.clock.act)
  {
    var now := env.clock.act;
    TimePasses(core, env.clock.touch, now);
    NotAskingIsClear(core, id, now);
    match message {
      case TextInput(_) => RouteTranscriptKeeps(config, core, id, env);
      case ToolCall(tool, arguments, callId, digest) =>
        if digest.Some? && config.digestOf(tool, arguments) != digest {
          InStateKeeps(core, id, Idle, now);
        } else {
          RunToolKeeps(config, core, id, tool, arguments, callId, digest, env);
        }
      case Wake => InStateKeeps(core, id, Listening, now);
      case HoldStart => InStateKeeps(core, id, Listening, now);
      case _ => InStateKeeps(core, id, Idle, now);
    }
  }

  lemma DispatchKeeps(config: Config, core: State, id: string, message: ClientMessage, env: Env)
    requires CoreInv(core, env.clock.touch) && id in core.sessions
    requires Timely(config, env.clock, env.clock.prune)
    requires core.sessions[id].lastSeen == env.clock.touch
    requires env.freshId !in core.pending
    ensures CoreInv(DispatchIn(config, core, id, message, env).state, env.clock.act)
  {
    var session := core.sessions[id];
    TimePasses(core, env.clock.touch, env.clock.act);
    if message.DeviceHello? && !session.capabilitiesInitialized {
      HelloKeeps(core, id, message.capabilities, env.clock.act);
    } else if message.Ping? || message.DeviceStatus? || message.DeviceHello? || message.CatalogRequest? {
    } else if !session.capabilitiesInitialized && !message.Abort? {
    } else if session.state == Confirm && !message.Abort? && !message.Confirmation? {
    } else {
      RequestKeeps(config, core, id, message, env);
    }
  }

  /** Only a session without capabilities announces them, and such a session owns nothing live. */
  lemma HelloKeeps(core: State, id: string, capabilities: seq<string>, now: int)
    requires CoreInv(core, now) && id in core.sessions && !core.sessions[id].capabilitiesInitialized
    ensures var ready := core.sessions[id].(capabilities := capabilities, capabilitiesInitialized := true);
            CoreInv(core.(sessions := core.sessions[id := ready]), now)
  {
    var ready := core.sessions[id].(capabilities := capabilities, capabilitiesInitialized := true);
    var after := core.(sessions := core.sessions[id := ready]);
    UpdateSize(core.sessions, id, ready);
    forall k | k in after.pending && now < after.pending[k].expiresAt
      ensures Backed(after, after.pending[k])
    {
      assert Backed(core, core.pending[k]);
    }
  }

  /** Every message keeps the invariant. */
  lemma HandleKeeps(config: Config, core: State, id: string, message: ClientMessage, env: Env, now: int)
    requires CoreInv(core, now) && Timely(config, env.clock, now) && env.freshId !in core.pending
    ensures CoreInv(HandleIn(config, core, id, message, env).state, env.clock.act)
  {
    var live := PruneStale(core, env.clock.prune);
    PruneStaleKeeps(core, now, env.clock.prune);
    if id in live.sessions {
      TouchedKeeps(live, id, env.clock.prune, env.clock.touch);
      DispatchKeeps(config, Touched(live, id, env.clock.touch), id, message, env);
    } else {
      TimePasses(live, env.clock.prune, env.clock.act);
    }
  }

  lemma HandleTranscriptKeeps(config: Config, core: State, id: string, env: Env, now: int)
    requires CoreInv(core, now) && Timely(config, env.clock, now) && env.freshId !in core.pending
    ensures CoreInv(HandleTranscriptIn(config, core, id, env).state, env.clock.act)
  {
    TimePasses(core, now, env.clock.act);
    if id in core.sessions {
      var touched := Touched(core, id, env.clock.touch);
      TouchedKeeps(core, id, now, env.clock.touch);
      TimePasses(touched, env.clock.touch, env.clock.act);
      if touched.sessions[id].capabilitiesInitialized && touched.sessions[id].state != Confirm {
        RouteTranscriptKeeps(config, touched, id, env);
      }
    }
  }

  lemma ClosedKeeps(core: State, id: string, now: int)
    requires CoreInv(core, now)
    ensures CoreInv(Closed(core, id), now)
  {
    FewerKeeps(core, Cancelled(core.pending, id), now);
    FewerSize(core.sessions, {id});
    var after := Closed(core, id);
    forall k | k in after.pending && now < after.pending[k].expiresAt
      ensures Backed(after, after.pending[k])
    {
      assert Backed(core, core.pending[k]);
    }
  }

  /**
   * Opening keeps the invariant although the registry's own pruning cancels nothing: a record
   * orphaned that way has already expired.
   */
  lemma OpenKeeps(core: State, v1: bool, device: string, capabilities: seq<string>, env: Env, now: int)
    requires CoreInv(core, now) && now <= env.clock.prune <= env.clock.act
    requires env.freshId !in core.sessions && env.freshId != ""
    ensures CoreInv(Open(core, v1, device, capabilities, env).0, env.clock.act)
  {
    var at := env.clock.act;
    var before := if v1 then PruneStale(core, env.clock.prune) else core;
    if v1 {
      PruneStaleKeeps(core, now, env.clock.prune);
    }
    var live := before.sessions - StaleIds(before.sessions, at);
    SilentPruneKeeps(before, if v1 then env.clock.prune else now, at);
    if Refusal(live, device).None? {
      AdmitKeeps(before.(sessions := live), env.freshId, Session(device, Idle, capabilities, v1, at), at);
    }
  }

  /** The registry forgets idle sessions; whatever they still owned has expired. */
  lemma SilentPruneKeeps(core: State, now: int, at: int)
    requires CoreInv(core, now) && now <= at
    ensures CoreInv(core.(sessions := core.sessions - StaleIds(core.sessions, at)), at)
  {
    var after := core.(sessions := core.sessions - StaleIds(core.sessions, at));
    FewerSize(core.sessions, StaleIds(core.sessions, at));
    forall k | k in after.pending && at < after.pending[k].expiresAt
      ensures Backed(after, after.pending[k])
    {
      assert Backed(core, core.pending[k]);
    }
  }

  lemma OneMoreSize(sessions: SessionMap, id: string, session: Session)
    requires id !in sessions
    ensures |sessions[id := session]| == |sessions| + 1
  {
    assert sessions[id := session].Keys == sessions.Keys + {id};
    assert |sessions[id := session].Keys| == |sessions.Keys| + 1;
  }

  lemma AdmitKeeps(core: State, id: string, session: Session, now: int)
    requires CoreInv(core, now) && |core.sessions| < MAX_SESSIONS
    requires id !in core.sessions && id != "" && session.lastSeen <= now
    ensures CoreInv(core.(sessions := core.sessions[id := session]), now)
  {
    var after := core.(sessions := core.sessions[id := session]);
    OneMoreSize(core.sessions, id, session);
    forall k | k in after.pending && now < after.pending[k].expiresAt
      ensures Backed(after, after.pending[k])
    {
      assert Backed(core, core.pending[k]);
    }
  }
}

/**
 * The Core's message handling (backend/pipa_core/core.py): sessions and confirmations under
 * one state machine. `Handle` and the functions above it say what one call does to the whole
 * state; class `PipaCore` does the same in place.
 */
module Core {
  import opened Prelude
  import opened Confirmations
  import opened Sessions
  import opened Tools

  datatype ClientMessage =
    | Ping
    | DeviceStatus
    | DeviceHello(capabilities: seq<string>)
    | CatalogRequest
    | Wake
    | HoldStart
    | HoldEnd
    | AudioEnd
    | Abort
    | Gesture(gesture: string)
    | TextInput(text: string)
    | ToolCall(tool: string, arguments: Arguments, callId: Option<string>, digest: Option<string>)
    | Confirmation(id: string, accepted: bool)
    | HelloOrChallenge

  datatype ServerMessage =
    | Pong
    | StatusAck
    | HelloAck
    | CatalogReply
    | GestureAck(gesture: string)
    | TtsAborted
    | ErrorReply(code: string)
    | UiUpdate(state: string)
    | ChallengeReply(wellFormed: bool)
    | ReadyReply(session: string, ui: Option<string>)
    | ConfirmRequest(id: string, tool: string, summary: string, expiresAt: int)
    | ToolResult(tool: string, success: bool)

  datatype Intent = InvalidTranscript | NoIntent | Recognized(tool: string, arguments: Arguments)

  /** The clock readings of one call: pruning first, then `touch`, then the router. */
  datatype Clock = Clock(prune: int, touch: int, act: int)

  /** Everything a call learns from outside the Core. */
  datatype Env = Env(
    clock: Clock,
    freshId: string,
    callbacks: Callbacks,
    memorySaved: bool,
    catalogValid: bool,
    intent: Intent)

  /** `digestOf` is the digest that binds a request to a tool and its arguments; `None` when it cannot be computed. */
  datatype Config = Config(catalog: Catalog, ttl: int, digestOf: (string, Arguments) -> Option<string>)

  datatype State = State(sessions: SessionMap, pending: Table)

  datatype Outcome = Outcome(state: State, replies: seq<ServerMessage>, events: seq<Event>)

  const DISPLAY := "display"
  const TOUCH := "touch"

  predicate CanConfirm(capabilities: seq<string>) {
    DISPLAY in capabilities && TOUCH in capabilities
  }

  /** The fixed label a device shows for a tool; it never contains arguments. */
  function DeviceLabel(tool: string): string {
    match tool
    case "open_app" => "Abrir una aplicación configurada."
    case "open_codex" => "Abrir Codex."
    case "web_search" => "Buscar en Internet."
    case "music_search" => "Buscar en Apple Music."
    case "music_open" => "Abrir Apple Music."
    case "league_open" => "Abrir League of Legends."
    case "discord_open_app" => "Abrir Discord."
    case "discord_open" => "Abrir un canal de Discord."
    case "discord_call_channel" => "Preparar una llamada de Discord; " + "el inicio será manual."
    case "discord_contact" => "Abrir un contacto de Discord."
    case "discord_call" => "Preparar una llamada de Discord; " + "el inicio será manual."
    case "whatsapp_compose" => "Preparar o enviar un mensaje de " + "WhatsApp según la configuración local."
    case "whatsapp_contact" => "Preparar o enviar un mensaje de " + "WhatsApp según la configuración local."
    case "whatsapp_contact_open" => "Abrir un chat de WhatsApp."
    case "whatsapp_phone_open" => "Abrir un chat de WhatsApp."
    case "whatsapp_open" => "Abrir WhatsApp Web."
    case "league_search" => "Buscar una partida en League."
    case "league_cancel" => "Cancelar la búsqueda de League."
    case "system_lock" => "Bloquear el ordenador."
    case "open_url" => "Abrir una URL validada."
    case _ => "Confirmar acción externa."
  }

  function PruneStale(state: State, now: int): State {
    var stale := StaleIds(state.sessions, now);
    State(state.sessions - stale, CancelAll(state.pending, stale))
  }

  function Cancel(state: State, owner: string): State {
    state.(pending := Cancelled(state.pending, owner))
  }

  function InState(state: State, id: string, ui: UiState): State
    requires id in state.sessions
  {
    state.(sessions := state.sessions[id := state.sessions[id].(state := ui)])
  }

  /** The error code followed by the session's current screen. */
  function Refused(state: State, id: string, code: string): Outcome
    requires id in state.sessions
  {
    Outcome(state, [ErrorReply(code), UiUpdate(UiName(state.sessions[id].state))], [])
  }

  function Succeeded(state: State, tool: string, success: bool, events: seq<Event>): Outcome {
    Outcome(state, [ToolResult(tool, success), UiUpdate(UiName(Idle))], events)
  }

  /** The tail of `_run_tool`: the router decides between running and asking. */
  function InvokeToolIn(config: Config, state: State, id: string, tool: string, arguments: Arguments,
                        callId: Option<string>, digest: Option<string>, env: Env): Outcome
    requires id in state.sessions
  {
    var (table, invocation, events) :=
      InvokeIn(state.pending, config.catalog, config.ttl, tool, None, Some(id), callId, digest,
               env.callbacks, env.freshId, env.clock.act);
    var after := state.(pending := table);
    match invocation
    case InvocationFailed(_) =>
      Outcome(InState(after, id, Idle), [ErrorReply("tool_failed"), UiUpdate(UiName(Idle))], events)
    case NeedsConfirmation(record) =>
      Outcome(InState(after, id, Confirm),
              [ConfirmRequest(record.id, record.tool, DeviceLabel(record.tool), record.expiresAt),
               UiUpdate(UiName(Confirm))],
              events)
    case Completed(success) => Succeeded(InState(after, id, Idle), tool, success, events)
  }

  function RunToolIn(config: Config, state: State, id: string, tool: string, arguments: Arguments,
                     callId: Option<string>, digest: Option<string>, env: Env): Outcome
    requires id in state.sessions
  {
    var thinking := InState(state, id, Thinking);
    var idle := InState(thinking, id, Idle);
    if tool == "remember_fact" then
      if env.memorySaved then Succeeded(idle, tool, true, []) else Refused(idle, id, "memory_failed")
    else if tool == "recall_memory" then Succeeded(idle, tool, true, [])
    else if tool in config.catalog && config.catalog[tool] == Unsafe && !CanConfirm(state.sessions[id].capabilities) then
      Refused(idle, id, "confirmation_unavailable")
    else InvokeToolIn(config, thinking, id, tool, arguments, callId, digest, env)
  }

  function RouteTranscriptIn(config: Config, state: State, id: string, env: Env): Outcome
    requires id in state.sessions
  {
    match env.intent
    case InvalidTranscript => Refused(InState(state, id, Idle), id, "invalid_transcript")
    case NoIntent => Refused(InState(state, id, Idle), id, "unsupported_text_intent")
    case Recognized(tool, arguments) => RunToolIn(config, state, id, tool, arguments, None, None, env)
  }

  function ResolveMessage(config: Config, state: State, id: string, confirmation: string, accepted: bool, env: Env): Outcome
    requires id in state.sessions
  {
    var (table, resolution, events) :=
      ResolveIn(state.pending, config.catalog, confirmation, accepted, Some(id), env.callbacks, env.clock.act);
    var after := state.(pending := table);
    var idle := InState(after, id, Idle);
    match resolution
    case ResolutionFailed(expected) =>
      Outcome(InState(Cancel(after, id), id, Idle),
              [ErrorReply(if expected then "confirmation_failed" else "tool_failed"), UiUpdate(UiName(Idle))],
              events)
    case Rejected(record) => Succeeded(idle, record.tool, false, events)
    case Resolved(record, success) => Succeeded(idle, record.tool, success, events)
  }

  /** The requests that reach the tail of `handle`. */
  function RequestIn(config: Config, state: State, id: string, message: ClientMessage, env: Env): Outcome
    requires id in state.sessions
  {
    match message
    case Wake => Outcome(InState(state, id, Listening), [UiUpdate(UiName(Listening))], [])
    case HoldStart => Outcome(InState(state, id, Listening), [UiUpdate(UiName(Listening))], [])
    case HoldEnd => Refused(InState(state, id, Idle), id, "voice_unavailable")
    case AudioEnd => Refused(InState(state, id, Idle), id, "voice_unavailable")
    case Abort => Outcome(InState(Cancel(state, id), id, Idle), [TtsAborted, UiUpdate(UiName(Idle))], [])
    case Gesture(gesture) => Outcome(state, [GestureAck(gesture)], [])
    case TextInput(_) => RouteTranscriptIn(config, state, id, env)
    case ToolCall(tool, arguments, callId, digest) =>
      if digest.Some? && config.digestOf(tool, arguments) != digest then
        Refused(InState(state, id, Idle), id, "request_binding_failed")
      else RunToolIn(config, state, id, tool, arguments, callId, digest, env)
    case Confirmation(confirmation, accepted) => ResolveMessage(config, state, id, confirmation, accepted, env)
    case _ => Outcome(state, [ErrorReply("unsupported_message")], [])
  }

  /** What `handle` does once the session is known and touched. */
  function DispatchIn(config: Config, state: State, id: string, message: ClientMessage, env: Env): Outcome
    requires id in state.sessions
  {
    var session := state.sessions[id];
    if message.Ping? then Outcome(state, [Pong], [])
    else if message.DeviceStatus? then Outcome(state, [StatusAck], [])
    else if message.DeviceHello? then
      if session.capabilitiesInitialized then Outcome(state, [ErrorReply("device_hello_not_expected")], [])
      else
        var ready := session.(capabilities := message.capabilities, capabilitiesInitialized := true);
        Outcome(state.(sessions := state.sessions[id := ready]), [HelloAck], [HelloAccepted(id, message.capabilities)])
    else if !session.capabilitiesInitialized && !message.Abort? then
      Outcome(state, [ErrorReply("device_hello_required")], [])
    else if message.CatalogRequest? then
      Outcome(state, [if env.catalogValid then CatalogReply else ErrorReply("catalog_unavailable")], [])
    else if session.state == Confirm && !message.Abort? && !message.Confirmation? then
      Refused(state, id, "confirmation_required")
    else RequestIn(config, state, id, message, env)
  }

  function Touched(state: State, id: string, now: int): State
    requires id in state.sessions
  {
    state.(sessions := state.sessions[id := state.sessions[id].(lastSeen := now)])
  }

  /** `PipaCore.handle`. */
  function HandleIn(config: Config, state: State, id: string, message: ClientMessage, env: Env): Outcome {
    var live := PruneStale(state, env.clock.prune);
    if id !in live.sessions then Outcome(live, [ErrorReply("unknown_session")], [])
    else DispatchIn(config, Touched(live, id, env.clock.touch), id, message, env)
  }

  /** `PipaCore.handle_transcript`: no pruning, but the same guards and the same route. */
  function HandleTranscriptIn(config: Config, state: State, id: string, env: Env): Outcome {
    if id !in state.sessions then Outcome(state, [ErrorReply("unknown_session")], [])
    else
      var touched := Touched(state, id, env.clock.touch);
      var session := touched.sessions[id];
      if !session.capabilitiesInitialized then Outcome(touched, [ErrorReply("device_hello_required")], [])
      else if session.state == Confirm then Refused(touched, id, "confirmation_required")
      else RouteTranscriptIn(config, touched, id, env)
  }

  /** `PipaCore.close`. */
  function Closed(state: State, id: string): State {
    var cancelled := Cancel(state, id);
    cancelled.(sessions := cancelled.sessions - {id})
  }

  /**
   * Opening a session. `authenticate` (v1) first prunes and cancels; the secure connection
   * (v2) calls the registry directly, whose own pruning cancels nothing.
   */
  function Open(state: State, v1: bool, device: string, capabilities: seq<string>, env: Env)
    : (State, Option<SessionError>, seq<Event>)
  {
    var before := if v1 then PruneStale(state, env.clock.prune) else state;
    var (sessions, refusal) :=
      CreateSessionIn(before.sessions, device, capabilities, v1, env.freshId, env.clock.act);
    (before.(sessions := sessions), refusal,
     if refusal.None? then [Opened(env.freshId, device, v1, capabilities)] else [])
  }

  class PipaCore {
    const sessions: SessionRegistry
    const router: ToolRouter
    const digestOf: (string, Arguments) -> Option<string>

    ghost const config: Config

    constructor (router: ToolRouter, digestOf: (string, Arguments) -> Option<string>)
      ensures this.router == router && this.digestOf == digestOf && Valid() && fresh(sessions)
      ensures View() == State(map[], router.confirmations.pending)
    {
      this.sessions := new SessionRegistry();
      this.router := router;
      this.digestOf := digestOf;
      this.config := Config(router.catalog, router.confirmations.ttl, digestOf);
    }

    ghost predicate Valid()
      reads this, sessions
    {
      sessions.Valid() && config == Config(router.catalog, router.confirmations.ttl, digestOf)
    }

    ghost function View(): State
      reads this, sessions, sessions.sessions.Values, router.confirmations
    {
      State(sessions.View(), router.confirmations.pending)
    }

    /** `session.set_state(...)`, seen from the whole Core. */
    method SetState(session: DeviceSession, ui: UiState)
      requires Valid()
      requires session.sessionId in sessions.sessions && sessions.sessions[session.sessionId] == session
      modifies session
      ensures Valid() && View() == InState(old(View()), session.sessionId, ui)
    {
      session.SetState(ui);
      sessions.OneChanged(session.sessionId);
    }

    /** Abort, or an answer that failed: whatever the session owns is cancelled. */
    method CancelAndRest(session: DeviceSession)
      requires Valid()
      requires session.sessionId in sessions.sessions && sessions.sessions[session.sessionId] == session
      modifies session, router.confirmations
      ensures Valid()
      ensures View() == InState(Cancel(old(View()), session.sessionId), session.sessionId, Idle)
    {
      var _ := router.CancelPending(session.sessionId);
      SetState(session, Idle);
    }

    method Close(id: string)
      requires Valid()
      modifies sessions, router.confirmations
      ensures Valid() && View() == Closed(old(View()), id)
    {
      var _ := router.CancelPending(id);
      sessions.Remove(id);
    }

    method PruneStaleSessions(now: int)
      requires Valid()
      modifies sessions, router.confirmations
      ensures Valid() && View() == PruneStale(old(View()), now)
      ensures sessions.sessions == old(sessions.sessions) - StaleIds(old(sessions.View()), now)
    {
      hide CancelAll, Stale;
      var stale := sessions.Prune(now);
      ghost var table := router.confirmations.pending;
      var todo := stale;
      CancelMore(table, {}, "");
      assert stale - todo == {};
      while todo != {}
        invariant todo <= stale
        invariant router.confirmations.pending == CancelAll(table, stale - todo)
        modifies router.confirmations
        decreases todo
      {
        var id :| id in todo;
        var _ := router.CancelPending(id);
        CancelMore(table, stale - todo, id);
        assert stale - (todo - {id}) == stale - todo + {id};
        todo := todo - {id};
      }
      assert stale - todo == stale;
    }

    method Authenticate(device: string, capabilities: seq<string>, env: Env)
      returns (r: Result<DeviceSession, SessionError>, ghost events: seq<Event>)
      requires Valid()
      modifies sessions, router.confirmations
      ensures Valid()
      ensures (View(), SessionRegistry.Error(r), events) == Open(old(View()), true, device, capabilities, env)
    {
      PruneStaleSessions(env.clock.prune);
      r := sessions.Create(device, capabilities, true, env.freshId, env.clock.act);
      events := if r.Success? then [Opened(env.freshId, device, true, capabilities)] else [];
    }

    /** The session the secure connection opens once its handshake is complete. */
    method OpenSecure(device: string, capabilities: seq<string>, env: Env)
      returns (r: Result<DeviceSession, SessionError>, ghost events: seq<Event>)
      requires Valid()
      modifies sessions
      ensures Valid()
      ensures (View(), SessionRegistry.Error(r), events) == Open(old(View()), false, device, capabilities, env)
    {
      r := sessions.Create(device, capabilities, false, env.freshId, env.clock.act);
      events := if r.Success? then [Opened(env.freshId, device, false, capabilities)] else [];
    }

    method InvokeTool(session: DeviceSession, tool: string, arguments: Arguments, callId: Option<string>,
                      digest: Option<string>, env: Env)
      returns (replies: seq<ServerMessage>, ghost events: seq<Event>)
      requires Valid()
      requires session.sessionId in sessions.sessions && sessions.sessions[session.sessionId] == session
      modifies session, router.confirmations
      ensures Valid()
      ensures Outcome(View(), replies, events) ==
              InvokeToolIn(config, old(View()), session.sessionId, tool, arguments, callId, digest, env)
    {
      var invocation;
      invocation, events := router.Invoke(tool, None, Some(session.sessionId), callId, digest, env.callbacks,
                                          env.freshId, env.clock.act);
      match invocation {
        case InvocationFailed(_) =>
          SetState(session, Idle);
          replies := [ErrorReply("tool_failed"), UiUpdate(UiName(Idle))];
        case NeedsConfirmation(record) =>
          SetState(session, Confirm);
          replies := [ConfirmRequest(record.id, record.tool, DeviceLabel(record.tool), record.expiresAt),
                      UiUpdate(UiName(Confirm))];
        case Completed(success) =>
          SetState(session, Idle);
          replies := [ToolResult(tool, success), UiUpdate(UiName(Idle))];
      }
    }

    method RunTool(session: DeviceSession, tool: string, arguments: Arguments, callId: Option<string>,
                   digest: Option<string>, env: Env)
      returns (replies: seq<ServerMessage>, ghost events: seq<Event>)
      requires Valid()
      requires session.sessionId in sessions.sessions && sessions.sessions[session.sessionId] == session
      modifies session, router.confirmations
      ensures Valid()
      ensures Outcome(View(), replies, events) ==
              RunToolIn(config, old(View()), session.sessionId, tool, arguments, callId, digest, env)
    {
      events := [];
      SetState(session, Thinking);
      if tool == "remember_fact" {
        SetState(session, Idle);
        replies := [if env.memorySaved then ToolResult(tool, true) else ErrorReply("memory_failed"), UiUpdate(UiName(Idle))];
      } else if tool == "recall_memory" {
        SetState(session, Idle);
        replies := [ToolResult(tool, true), UiUpdate(UiName(Idle))];
      } else if tool in router.catalog && router.catalog[tool] == Unsafe && !CanConfirm(session.capabilities) {
        SetState(session, Idle);
        replies := [ErrorReply("confirmation_unavailable"), UiUpdate(UiName(Idle))];
      } else {
        replies, events := InvokeTool(session, tool, arguments, callId, digest, env);
      }
    }

    method RouteTranscript(session: DeviceSession, env: Env)
      returns (replies: seq<ServerMessage>, ghost events: seq<Event>)
      requires Valid()
      requires session.sessionId in sessions.sessions && sessions.sessions[session.sessionId] == session
      modifies session, router.confirmations
      ensures Valid()
      ensures Outcome(View(), replies, events) == RouteTranscriptIn(config, old(View()), session.sessionId, env)
    {
      events := [];
      match env.intent {
        case InvalidTranscript =>
          SetState(session, Idle);
          replies := [ErrorReply("invalid_transcript"), UiUpdate(UiName(Idle))];
        case NoIntent =>
          SetState(session, Idle);
          replies := [ErrorReply("unsupported_text_intent"), UiUpdate(UiName(Idle))];
        case Recognized(tool, arguments) =>
          replies, events := RunTool(session, tool, arguments, None, None, env);
      }
    }

    method Resolve(session: DeviceSession, confirmation: string, accepted: bool, env: Env)
      returns (replies: seq<ServerMessage>, ghost events: seq<Event>)
      requires Valid()
      requires session.sessionId in sessions.sessions && sessions.sessions[session.sessionId] == session
      modifies session, router.confirmations
      ensures Valid()
      ensures Outcome(View(), replies, events) ==
              ResolveMessage(config, old(View()), session.sessionId, confirmation, accepted, env)
    {
      var resolution;
      resolution, events :=
        router.ResolveConfirmation(confirmation, accepted, Some(session.sessionId), env.callbacks, env.clock.act);
      match resolution {
        case ResolutionFailed(expected) =>
          CancelAndRest(session);
          replies := [ErrorReply(if expected then "confirmation_failed" else "tool_failed"), UiUpdate(UiName(Idle))];
        case Rejected(record) =>
          SetState(session, Idle);
          replies := [ToolResult(record.tool, false), UiUpdate(UiName(Idle))];
        case Resolved(record, success) =>
          SetState(session, Idle);
          replies := [ToolResult(record.tool, success), UiUpdate(UiName(Idle))];
      }
    }

    method Handle(id: string, message: ClientMessage, env: Env)
      returns (replies: seq<ServerMessage>, ghost events: seq<Event>)
      requires Valid()
      modifies sessions, sessions.sessions.Values, router.confirmations
      ensures Valid()
      ensures Outcome(View(), replies, events) == HandleIn(config, old(View()), id, message, env)
    {
      events := [];
      PruneStaleSessions(env.clock.prune);
      if id !in sessions.sessions {
        replies := [ErrorReply("unknown_session")];
        return;
      }
      var session := sessions.sessions[id];
      Touch(session, env.clock.touch);
      replies, events := Dispatch(session, message, env);
    }

    method Touch(session: DeviceSession, now: int)
      requires Valid()
      requires session.sessionId in sessions.sessions && sessions.sessions[session.sessionId] == session
      modifies session
      ensures Valid() && View() == Touched(old(View()), session.sessionId, now)
    {
      session.Touch(now);
      sessions.OneChanged(session.sessionId);
    }

    method Dispatch(session: DeviceSession, message: ClientMessage, env: Env)
      returns (replies: seq<ServerMessage>, ghost events: seq<Event>)
      requires Valid()
      requires session.sessionId in sessions.sessions && sessions.sessions[session.sessionId] == session
      modifies session, router.confirmations
      ensures Valid()
      ensures Outcome(View(), replies, events) == DispatchIn(config, old(View()), session.sessionId, message, env)
    {
      events := [];
      if message.Ping? {
        replies := [Pong];
      } else if message.DeviceStatus? {
        replies := [StatusAck];
      } else if message.DeviceHello? {
        if session.capabilitiesInitialized {
          replies := [ErrorReply("device_hello_not_expected")];
          return;
        }
        session.Initialize(message.capabilities);
        sessions.OneChanged(session.sessionId);
        replies, events := [HelloAck], [HelloAccepted(session.sessionId, message.capabilities)];
      } else if !session.capabilitiesInitialized && !message.Abort? {
        replies := [ErrorReply("device_hello_required")];
      } else if message.CatalogRequest? {
        replies := [if env.catalogValid then CatalogReply else ErrorReply("catalog_unavailable")];
      } else if session.state == Confirm && !message.Abort? && !message.Confirmation? {
        replies := [ErrorReply("confirmation_required"), UiUpdate(UiName(session.state))];
      } else {
        replies, events := DispatchRequest(session, message, env);
      }
    }

    /** The requests that reach the tail of `handle`. */
    method DispatchRequest(session: DeviceSession, message: ClientMessage, env: Env)
      returns (replies: seq<ServerMessage>, ghost events: seq<Event>)
      requires Valid()
      requires session.sessionId in sessions.sessions && sessions.sessions[session.sessionId] == session
      modifies session, router.confirmations
      ensures Valid()
      ensures Outcome(View(), replies, events) == RequestIn(config, old(View()), session.sessionId, message, env)
    {
      hide View, RunToolIn, RouteTranscriptIn, ResolveMessage, UiName, Cancel;
      events := [];
      match message {
        case Wake =>
          SetState(session, Listening);
          replies := [UiUpdate(UiName(Listening))];
        case HoldStart =>
          SetState(session, Listening);
          replies := [UiUpdate(UiName(Listening))];
        case HoldEnd =>
          SetState(session, Idle);
          replies := [ErrorReply("voice_unavailable"), UiUpdate(UiName(Idle))];
        case AudioEnd =>
          SetState(session, Idle);
          replies := [ErrorReply("voice_unavailable"), UiUpdate(UiName(Idle))];
        case Abort =>
          CancelAndRest(session);
          replies := [TtsAborted, UiUpdate(UiName(Idle))];
        case Gesture(gesture) =>
          replies := [GestureAck(gesture)];
        case TextInput(_) =>
          replies, events := RouteTranscript(session, env);
        case ToolCall(tool, arguments, callId, digest) =>
          if digest.Some? && digestOf(tool, arguments) != digest {
            SetState(session, Idle);
            replies := [ErrorReply("request_binding_failed"), UiUpdate(UiName(Idle))];
          } else {
            replies, events := RunTool(session, tool, arguments, callId, digest, env);
          }
        case Confirmation(confirmation, accepted) =>
          replies, events := Resolve(session, confirmation, accepted, env);
        case _ =>
          replies := [ErrorReply("unsupported_message")];
      }
    }

    method HandleTranscript(id: string, env: Env)
      returns (replies: seq<ServerMessage>, ghost events: seq<Event>)
      requires Valid()
      modifies sessions.sessions.Values, router.confirmations
      ensures Valid()
      ensures Outcome(View(), replies, events) == HandleTranscriptIn(config, old(View()), id, env)
    {
      events := [];
      if id !in sessions.sessions {
        replies := [ErrorReply("unknown_session")];
        return;
      }
      var session := sessions.sessions[id];
      Touch(session, env.clock.touch);
      if !session.capabilitiesInitialized {
        replies := [ErrorReply("device_hello_required")];
      } else if session.state == Confirm {
        replies := [ErrorReply("confirmation_required"), UiUpdate(UiName(session.state))];
      } else {
        replies, events := RouteTranscript(session, env);
      }
    }
  }
}

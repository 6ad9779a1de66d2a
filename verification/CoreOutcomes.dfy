/**
 * What each call on the Core does, stated for the caller (backend/pipa_core/core.py): which message, of a session in which
 * state, has which reply, leaves the session on which screen, and creates or runs what. None of these statements uses
 * the functions that compute a call.
 */
module CoreOutcomes {
  import opened Prelude
  import opened Confirmations
  import opened Sessions
  import opened Tools
  import opened Core
  import opened CoreEvents

  // ----- Pruning -----

  /** Idle for less than a quarter of an hour. */
  predicate Fresh(session: Session, now: int) {
    now - session.lastSeen < 900
  }

  function Live(sessions: SessionMap, now: int): set<string> {
    set id | id in sessions && Fresh(sessions[id], now)
  }

  function LiveOf(sessions: SessionMap, device: string, now: int): set<string> {
    set id | id in sessions && Fresh(sessions[id], now) && sessions[id].device == device
  }

  /** The record's owner is a session that went idle. */
  predicate Orphaned(core: State, record: Pending, now: int) {
    && record.owner.Some? && record.owner.value != "" && record.owner.value in core.sessions
    && !Fresh(core.sessions[record.owner.value], now)
  }

  /** Pruning removes exactly the idle sessions, with exactly what they owned. */
  lemma PruneIsExact(core: State, now: int)
    ensures var after := PruneStale(core, now);
            && (forall id :: id in after.sessions <==> id in core.sessions && Fresh(core.sessions[id], now))
            && (forall id :: id in after.sessions ==> after.sessions[id] == core.sessions[id])
            && (forall k :: k in after.pending <==> k in core.pending && !Orphaned(core, core.pending[k], now))
            && (forall k :: k in after.pending ==> after.pending[k] == core.pending[k])
  {
  }

  /** Closing removes exactly the session and what it owned. */
  lemma CloseIsExact(core: State, id: string)
    requires id != ""
    ensures var after := Closed(core, id);
            && (forall k :: k in after.sessions <==> k in core.sessions && k != id)
            && (forall k :: k in after.sessions ==> after.sessions[k] == core.sessions[k])
            && (forall k :: k in after.pending <==> k in core.pending && core.pending[k].owner != Some(id))
            && (forall k :: k in after.pending ==> after.pending[k] == core.pending[k])
  {
  }

  /**
   * A session opens if and only if, not counting idle ones, there are fewer than 32 and fewer than two of its device. It
   * starts idle; a v1 session has its capabilities at once, a v2 session has none yet.
   */
  lemma OpensExactly(core: State, v1: bool, device: string, capabilities: seq<string>, env: Env)
    requires env.clock.prune <= env.clock.act
    ensures var live, own := Live(core.sessions, env.clock.act), LiveOf(core.sessions, device, env.clock.act);
            var (after, refusal, events) := Open(core, v1, device, capabilities, env);
            && (refusal.None? <==> |live| < 32 && |own| < 2)
            && (refusal == Some(TooManySessions) <==> |live| >= 32)
            && (refusal.None? ==> after.sessions.Keys == live + {env.freshId} && events == [Opened(env.freshId, device, v1, capabilities)] &&
                                  after.sessions[env.freshId] == Session(device, Idle, capabilities, v1, env.clock.act))
            && (refusal.Some? ==> after.sessions.Keys == live && events == [])
  {
    hide PruneStale, CreateSessionIn;
    PruneIsExact(core, env.clock.prune);
    var before := if v1 then PruneStale(core, env.clock.prune) else core;
    CreatesExactly(before.sessions, device, capabilities, v1, env.freshId, env.clock.act);
    assert Live(before.sessions, env.clock.act) == Live(core.sessions, env.clock.act);
    assert LiveOf(before.sessions, device, env.clock.act) == LiveOf(core.sessions, device, env.clock.act);
  }

  lemma CreatesExactly(sessions: SessionMap, device: string, capabilities: seq<string>, initialized: bool, id: string, now: int)
    ensures var live, own := Live(sessions, now), LiveOf(sessions, device, now);
            var (after, refusal) := CreateSessionIn(sessions, device, capabilities, initialized, id, now);
            && (refusal.None? <==> |live| < 32 && |own| < 2) && (refusal == Some(TooManySessions) <==> |live| >= 32)
            && (refusal.None? ==> after.Keys == live + {id} && after[id] == Session(device, Idle, capabilities, initialized, now))
            && (refusal.Some? ==> after.Keys == live)
  {
    hide Live, LiveOf, StaleIds, IdsForDevice;
    LiveSessions(sessions, device, now);
  }

  lemma LiveSessions(sessions: SessionMap, device: string, now: int)
    ensures var kept := sessions - StaleIds(sessions, now);
            && kept.Keys == Live(sessions, now) && |kept| == |Live(sessions, now)|
            && IdsForDevice(kept, device) == LiveOf(sessions, device, now)
  {
    var kept := sessions - StaleIds(sessions, now);
    assert kept.Keys == Live(sessions, now) && |kept.Keys| == |kept|;
    assert IdsForDevice(kept, device) == LiveOf(sessions, device, now);
  }

  // ----- One message -----

  /** The call finds the session, on this screen or another. */
  predicate Finds(core: State, id: string, env: Env) {
    id in core.sessions && Fresh(core.sessions[id], env.clock.prune)
  }

  /** The session after the call: touched, and otherwise as given. */
  predicate SessionIs(out: Outcome, id: string, session: Session, env: Env) {
    id in out.state.sessions && out.state.sessions[id] == session.(lastSeen := env.clock.touch)
  }

  /** Nothing else happened: other sessions and all records are those that pruning left. */
  predicate NothingElse(core: State, out: Outcome, id: string, env: Env) {
    var live := PruneStale(core, env.clock.prune);
    && out.events == [] && out.state.pending == live.pending
    && out.state.sessions.Keys == live.sessions.Keys
    && forall k :: k in live.sessions && k != id ==> out.state.sessions[k] == live.sessions[k]
  }

  lemma UnknownSessionsAreRefused(config: Config, core: State, id: string, message: ClientMessage, env: Env)
    ensures var out := HandleIn(config, core, id, message, env);
            !Finds(core, id, env) ==> out == Outcome(PruneStale(core, env.clock.prune), [ErrorReply("unknown_session")], [])
  {
    PruneIsExact(core, env.clock.prune);
  }

  /** Messages that a session in any state may send. */
  lemma StatusOutcomes(config: Config, core: State, id: string, message: ClientMessage, env: Env)
    requires Finds(core, id, env)
    ensures var session, out := core.sessions[id], HandleIn(config, core, id, message, env);
            && (message.Ping? ==> out.replies == [Pong])
            && (message.DeviceStatus? ==> out.replies == [StatusAck])
            && (message.Ping? || message.DeviceStatus? ==> NothingElse(core, out, id, env) && SessionIs(out, id, session, env))
  {
  }

  /** The first hello of a session without capabilities is accepted with what it announces, and no other. */
  lemma HelloOutcome(config: Config, core: State, id: string, capabilities: seq<string>, env: Env)
    requires Finds(core, id, env)
    ensures var session, out := core.sessions[id], HandleIn(config, core, id, DeviceHello(capabilities), env);
            if session.capabilitiesInitialized then
              && out.replies == [ErrorReply("device_hello_not_expected")]
              && NothingElse(core, out, id, env) && SessionIs(out, id, session, env)
            else
              && out.replies == [HelloAck] && out.events == [HelloAccepted(id, capabilities)]
              && SessionIs(out, id, session.(capabilities := capabilities, capabilitiesInitialized := true), env)
              && out.state.pending == PruneStale(core, env.clock.prune).pending
  {
  }

  /** Before the hello, and while a confirmation is open, everything else is refused and changes nothing. */
  lemma GuardOutcomes(config: Config, core: State, id: string, message: ClientMessage, env: Env)
    requires Finds(core, id, env) && !message.Ping? && !message.DeviceStatus? && !message.DeviceHello? && !message.Abort?
    ensures var session, out := core.sessions[id], HandleIn(config, core, id, message, env);
            && (!session.capabilitiesInitialized ==>
                  out.replies == [ErrorReply("device_hello_required")] &&
                  NothingElse(core, out, id, env) && SessionIs(out, id, session, env))
            && (session.capabilitiesInitialized && session.state == Confirm && !message.Confirmation? && !message.CatalogRequest? ==>
                  out.replies == [ErrorReply("confirmation_required"), UiUpdate("confirm")] &&
                  NothingElse(core, out, id, env) && SessionIs(out, id, session, env))
  {
  }

  /** An abort is always obeyed: the session rests, and nothing it owned is left. */
  lemma AbortOutcome(config: Config, core: State, id: string, env: Env)
    requires Finds(core, id, env) && id != ""
    ensures var session, out, live := core.sessions[id], HandleIn(config, core, id, Abort, env), PruneStale(core, env.clock.prune);
            && out.replies == [TtsAborted, UiUpdate("idle")] && out.events == []
            && SessionIs(out, id, session.(state := Idle), env)
            && (forall k :: k in out.state.pending <==> k in live.pending && live.pending[k].owner != Some(id))
            && (forall k :: k in out.state.pending ==> out.state.pending[k] == live.pending[k])
  {
  }

  /** A ready session without an open confirmation. */
  predicate Ready(core: State, id: string, env: Env) {
    Finds(core, id, env) && core.sessions[id].capabilitiesInitialized && core.sessions[id].state != Confirm
  }

  lemma ScreenOutcomes(config: Config, core: State, id: string, message: ClientMessage, env: Env)
    requires Ready(core, id, env)
    requires message.Wake? || message.HoldStart? || message.HoldEnd? || message.AudioEnd? || message.Gesture? || message.CatalogRequest?
    ensures var session, out := core.sessions[id], HandleIn(config, core, id, message, env);
            && NothingElse(core, out, id, env)
            && (message.Wake? || message.HoldStart? ==>
                  out.replies == [UiUpdate("listening")] && SessionIs(out, id, session.(state := Listening), env))
            && (message.HoldEnd? || message.AudioEnd? ==>
                  out.replies == [ErrorReply("voice_unavailable"), UiUpdate("idle")] && SessionIs(out, id, session.(state := Idle), env))
            && (message.Gesture? ==> out.replies == [GestureAck(message.gesture)] && SessionIs(out, id, session, env))
            && (message.CatalogRequest? ==>
                  out.replies == [if env.catalogValid then CatalogReply else ErrorReply("catalog_unavailable")] &&
                  SessionIs(out, id, session, env))
  {
  }

  // ----- Request binding -----

  /** The call carries a digest that is not the one of its own tool and arguments. */
  predicate Misbound(config: Config, message: ClientMessage) {
    message.ToolCall? && message.digest.Some? && message.digest != config.digestOf(message.tool, message.arguments)
  }

  /**
   * A ready session's tool call is refused for its digest if and only if the digest is wrong; then nothing runs,
   * nothing is asked, and the session rests.
   */
  lemma MisboundCallsAreRefused(config: Config, core: State, id: string, call: ClientMessage, env: Env)
    requires Ready(core, id, env) && call.ToolCall?
    ensures var session, out := core.sessions[id], HandleIn(config, core, id, call, env);
            && (out.replies[..1] == [ErrorReply("request_binding_failed")] <==> Misbound(config, call))
            && (Misbound(config, call) ==>
                  && out.replies == [ErrorReply("request_binding_failed"), UiUpdate("idle")]
                  && NothingElse(core, out, id, env) && SessionIs(out, id, session.(state := Idle), env))
            && (Misbound(config, call) <==> OrderOf(config, Some(call), env).None?)
  {
    hide RunToolIn;
    var touched := Touched(PruneStale(core, env.clock.prune), id, env.clock.touch);
    if !Misbound(config, call) {
      OtherErrors(config, touched, id, call, env);
    }
  }

  /** A tool that is tried is not refused for its binding. */
  lemma OtherErrors(config: Config, core: State, id: string, call: ClientMessage, env: Env)
    requires id in core.sessions && call.ToolCall?
    ensures var out := RunToolIn(config, core, id, call.tool, call.arguments, call.callId, call.digest, env);
            out.replies != [] && out.replies[0] != ErrorReply("request_binding_failed")
  {
  }

  // ----- Orders -----

  /** What the call works on: a message prunes first, a transcript does not. */
  function Before(core: State, message: Option<ClientMessage>, env: Env): State {
    if message.Some? then PruneStale(core, env.clock.prune) else core
  }

  /** A session that may order, in what the call works on. */
  predicate MayOrder(core: State, id: string, message: Option<ClientMessage>, env: Env) {
    && id in core.sessions && (message.Some? ==> Fresh(core.sessions[id], env.clock.prune))
    && core.sessions[id].capabilitiesInitialized && core.sessions[id].state != Confirm
  }

  predicate HasDisplayAndTouch(session: Session) {
    "display" in session.capabilities && "touch" in session.capabilities
  }

  /** The call ends with the session at rest, and creates nothing. */
  predicate EndsIdle(core: State, out: Outcome, id: string, message: Option<ClientMessage>, env: Env, reply: ServerMessage) {
    && id in core.sessions && out.replies == [reply, UiUpdate("idle")]
    && SessionIs(out, id, core.sessions[id].(state := Idle), env)
    && out.state.pending == Before(core, message, env).pending
  }

  /** Every order but an unsafe one that may be asked about: what runs, what is answered, and that nothing is created. */
  lemma OrderOutcomes(config: Config, core: State, id: string, message: Option<ClientMessage>, env: Env)
    requires MayOrder(core, id, message, env) && OrderOf(config, message, env).Some?
    ensures var order, out := OrderOf(config, message, env).value, CallIn(config, core, id, message, env);
            var tool, callbacks := order.tool, env.callbacks;
            if tool == "remember_fact" then
              out.events == [] &&
              EndsIdle(core, out, id, message, env, if env.memorySaved then ToolResult(tool, true) else ErrorReply("memory_failed"))
            else if tool == "recall_memory" then
              out.events == [] && EndsIdle(core, out, id, message, env, ToolResult(tool, true))
            else if tool !in config.catalog then
              out.events == [] && EndsIdle(core, out, id, message, env, ErrorReply("tool_failed"))
            else if config.catalog[tool] == Unsafe && !HasDisplayAndTouch(core.sessions[id]) then
              out.events == [] && EndsIdle(core, out, id, message, env, ErrorReply("confirmation_unavailable"))
            else if callbacks.validated.Invalid? then
              out.events == [] && EndsIdle(core, out, id, message, env, ErrorReply("tool_failed"))
            else if config.catalog[tool] == Safe then
              && out.events == [Ran(Some(id), tool, callbacks.validated.value, None)]
              && EndsIdle(core, out, id, message, env,
                          if callbacks.handler.Returned? then ToolResult(tool, callbacks.handler.success) else ErrorReply("tool_failed"))
            else
              callbacks.prepared.PreparerRaised? || callbacks.prepared.NotAMapping? || callbacks.summary.SummaryRaised? ==>
                out.events == [] && EndsIdle(core, out, id, message, env, ErrorReply("tool_failed"))
  {
    hide PruneStale, RunToolIn;
    PruneIsExact(core, env.clock.prune);
    var order := OrderOf(config, message, env).value;
    var touched := Touched(Before(core, message, env), id, env.clock.touch);
    OrderReaches(config, core, id, message, env);
    ToolOutcomes(config, touched, id, order, env);
  }

  /** A text or transcript in which no command is recognised is refused with the reason, and the session rests. */
  lemma UnreadTextsAreRefused(config: Config, core: State, id: string, message: Option<ClientMessage>, env: Env)
    requires MayOrder(core, id, message, env) && (message.Some? ==> message.value.TextInput?) && !env.intent.Recognized?
    ensures var out := CallIn(config, core, id, message, env);
            && out.events == []
            && EndsIdle(core, out, id, message, env,
                        ErrorReply(if env.intent.InvalidTranscript? then "invalid_transcript" else "unsupported_text_intent"))
  {
    hide PruneStale;
    PruneIsExact(core, env.clock.prune);
  }

  /** A transcript for a session that may not order. */
  lemma TranscriptGuards(config: Config, core: State, id: string, env: Env)
    requires !MayOrder(core, id, None, env)
    ensures var out := HandleTranscriptIn(config, core, id, env);
            && out.events == [] && out.state.pending == core.pending && out.state.sessions.Keys == core.sessions.Keys
            && (id in core.sessions ==> SessionIs(out, id, core.sessions[id], env))
            && out.replies == if id !in core.sessions then [ErrorReply("unknown_session")]
                              else if !core.sessions[id].capabilitiesInitialized then [ErrorReply("device_hello_required")]
                              else [ErrorReply("confirmation_required"), UiUpdate("confirm")]
  {
  }

  lemma OrderReaches(config: Config, core: State, id: string, message: Option<ClientMessage>, env: Env)
    requires MayOrder(core, id, message, env) && OrderOf(config, message, env).Some?
    ensures var order, before := OrderOf(config, message, env).value, Before(core, message, env);
            && id in before.sessions && before.sessions[id] == core.sessions[id]
            && CallIn(config, core, id, message, env) ==
                 RunToolIn(config, Touched(before, id, env.clock.touch), id, order.tool, order.arguments, order.callId, order.digest, env)
  {
    hide RunToolIn;
  }

  lemma ToolOutcomes(config: Config, core: State, id: string, order: Order, env: Env)
    requires id in core.sessions
    ensures var out := RunToolIn(config, core, id, order.tool, order.arguments, order.callId, order.digest, env);
            var tool, callbacks, rest := order.tool, env.callbacks, InState(core, id, Idle);
            if tool == "remember_fact" then
              out == Outcome(rest, [if env.memorySaved then ToolResult(tool, true) else ErrorReply("memory_failed"), UiUpdate("idle")], [])
            else if tool == "recall_memory" then out == Outcome(rest, [ToolResult(tool, true), UiUpdate("idle")], [])
            else if tool !in config.catalog then out == Outcome(rest, [ErrorReply("tool_failed"), UiUpdate("idle")], [])
            else if config.catalog[tool] == Unsafe && !HasDisplayAndTouch(core.sessions[id]) then
              out == Outcome(rest, [ErrorReply("confirmation_unavailable"), UiUpdate("idle")], [])
            else if callbacks.validated.Invalid? then out == Outcome(rest, [ErrorReply("tool_failed"), UiUpdate("idle")], [])
            else if config.catalog[tool] == Safe then
              out == Outcome(rest,
                             [if callbacks.handler.Returned? then ToolResult(tool, callbacks.handler.success)
                              else ErrorReply("tool_failed"), UiUpdate("idle")],
                             [Ran(Some(id), tool, callbacks.validated.value, None)])
            else
              callbacks.prepared.PreparerRaised? || callbacks.prepared.NotAMapping? || callbacks.summary.SummaryRaised? ==>
                out == Outcome(rest, [ErrorReply("tool_failed"), UiUpdate("idle")], [])
  {
    hide CreateIn;
  }

  // ----- Answers -----

  /** The answered record is there, unexpired, and this session's. */
  predicate Answers(live: State, id: string, confirmation: string, env: Env) {
    && confirmation in live.pending && env.clock.act < live.pending[confirmation].expiresAt
    && (live.pending[confirmation].owner.None? || live.pending[confirmation].owner == Some(id))
  }

  /** Only this record went. */
  ghost predicate WithoutRecord(live: State, after: Table, confirmation: string) {
    && (forall k :: k in after <==> k in live.pending && k != confirmation)
    && forall k :: k in after ==> after[k] == live.pending[k]
  }

  /** This record went, and everything of the session. */
  ghost predicate WithoutOwner(live: State, after: Table, confirmation: string, id: string, consumed: bool) {
    && (forall k :: k in after <==> k in live.pending && !(consumed && k == confirmation) && live.pending[k].owner != Some(id))
    && forall k :: k in after ==> after[k] == live.pending[k]
  }

  /** Every answer of a session that has announced itself: the reply, what runs, and what stays pending. */
  lemma AnswerOutcomes(config: Config, core: State, id: string, confirmation: string, accepted: bool, env: Env)
    requires Finds(core, id, env) && id != "" && core.sessions[id].capabilitiesInitialized
    ensures var session, out := core.sessions[id], HandleIn(config, core, id, Confirmation(confirmation, accepted), env);
            var live, callbacks := PruneStale(core, env.clock.prune), env.callbacks;
            && SessionIs(out, id, session.(state := Idle), env)
            && if !Answers(live, id, confirmation, env) then
                 && out.events == [] && out.replies == [ErrorReply("confirmation_failed"), UiUpdate("idle")]
                 && WithoutOwner(live, out.state.pending, confirmation, id, false)
               else
                 var record := live.pending[confirmation];
                 if !accepted then
                   && out.events == [] && out.replies == [ToolResult(record.tool, false), UiUpdate("idle")]
                   && WithoutRecord(live, out.state.pending, confirmation)
                 else if record.tool !in config.catalog || (record.execution.None? && callbacks.validated.Invalid?) then
                   && out.events == []
                   && out.replies == [ErrorReply(if record.tool !in config.catalog || callbacks.validated.expected
                                                 then "confirmation_failed" else "tool_failed"), UiUpdate("idle")]
                   && WithoutOwner(live, out.state.pending, confirmation, id, true)
                 else
                   && |out.events| == 1 && out.events[0].Ran? && out.events[0].via == Some(record)
                   && (callbacks.handler.Returned? ==>
                         out.replies == [ToolResult(record.tool, callbacks.handler.success), UiUpdate("idle")] &&
                         WithoutRecord(live, out.state.pending, confirmation))
                   && (callbacks.handler.Raised? ==>
                         out.replies == [ErrorReply(if callbacks.handler.expected then "confirmation_failed" else "tool_failed"),
                                         UiUpdate("idle")] &&
                         WithoutOwner(live, out.state.pending, confirmation, id, true))
  {
    hide PruneStale, ResolveMessage;
    PruneIsExact(core, env.clock.prune);
    ResolveOutcomes(config, Touched(PruneStale(core, env.clock.prune), id, env.clock.touch), id, confirmation, accepted, env);
  }

  lemma ResolveOutcomes(config: Config, core: State, id: string, confirmation: string, accepted: bool, env: Env)
    requires id in core.sessions && id != ""
    ensures var out, callbacks := ResolveMessage(config, core, id, confirmation, accepted, env), env.callbacks;
            && out.state.sessions == core.sessions[id := core.sessions[id].(state := Idle)]
            && if !Answers(core, id, confirmation, env) then
                 && out.events == [] && out.replies == [ErrorReply("confirmation_failed"), UiUpdate("idle")]
                 && WithoutOwner(core, out.state.pending, confirmation, id, false)
               else
                 var record := core.pending[confirmation];
                 if !accepted then
                   && out.events == [] && out.replies == [ToolResult(record.tool, false), UiUpdate("idle")]
                   && WithoutRecord(core, out.state.pending, confirmation)
                 else if record.tool !in config.catalog || (record.execution.None? && callbacks.validated.Invalid?) then
                   && out.events == []
                   && out.replies == [ErrorReply(if record.tool !in config.catalog || callbacks.validated.expected
                                                 then "confirmation_failed" else "tool_failed"), UiUpdate("idle")]
                   && WithoutOwner(core, out.state.pending, confirmation, id, true)
                 else
                   && |out.events| == 1 && out.events[0].Ran? && out.events[0].via == Some(record)
                   && (callbacks.handler.Returned? ==>
                         out.replies == [ToolResult(record.tool, callbacks.handler.success), UiUpdate("idle")] &&
                         WithoutRecord(core, out.state.pending, confirmation))
                   && (callbacks.handler.Raised? ==>
                         out.replies == [ErrorReply(if callbacks.handler.expected then "confirmation_failed" else "tool_failed"),
                                         UiUpdate("idle")] &&
                         WithoutOwner(core, out.state.pending, confirmation, id, true))
  {
  }
}

/**
 * What one call can do that the outside sees: the shape of its events, replies and of the
 * table of pending confirmations, whatever the message was.
 */
module CoreEvents {
  import opened Prelude
  import opened Confirmations
  import opened Sessions
  import opened Tools
  import opened Core

  /** The tool an accepted message or transcript asks for, with what it is bound to. */
  datatype Order = Order(tool: string, arguments: Arguments, callId: Option<string>, digest: Option<string>)

  /** `None` is a transcript. A bound call is an order only when its digest is that of its own tool and arguments. */
  function OrderOf(config: Config, message: Option<ClientMessage>, env: Env): Option<Order> {
    if message.None? || message.value.TextInput? then
      if env.intent.Recognized? then Some(Order(env.intent.tool, env.intent.arguments, None, None)) else None
    else
      match message.value
      case ToolCall(tool, arguments, callId, digest) =>
        if digest.Some? && config.digestOf(tool, arguments) != digest then None
        else Some(Order(tool, arguments, callId, digest))
      case _ => None
  }

  /** One call on the Core: a message, or a transcript. */
  function CallIn(config: Config, core: State, id: string, message: Option<ClientMessage>, env: Env): Outcome {
    if message.Some? then HandleIn(config, core, id, message.value, env) else HandleTranscriptIn(config, core, id, env)
  }

  /** The order of the message is for this tool, with this call id and this digest, which is that of the order. */
  ghost predicate Ordered(config: Config, message: Option<ClientMessage>, env: Env, tool: string, callId: Option<string>,
                          digest: Option<string>)
  {
    var order := OrderOf(config, message, env);
    && order.Some? && order.value.tool == tool && order.value.callId == callId && order.value.digest == digest
    && (digest.Some? ==> digest == config.digestOf(tool, order.value.arguments))
  }

  ghost predicate Keyed(table: Table) {
    forall k :: k in table ==> table[k].id == k
  }

  /** The event of a call on session `id` is justified by the state the call found. */
  ghost predicate Justified(config: Config, before: State, id: string, message: Option<ClientMessage>,
                            env: Env, event: Event)
  {
    && id in before.sessions
    && var session := before.sessions[id];
       match event {
         case Minted(record) =>
           && record.id == env.freshId
           && record.owner == Some(id)
           && record.tool in config.catalog && config.catalog[record.tool] == Unsafe
           && Ordered(config, message, env, record.tool, record.callId, record.digest)
           && session.capabilitiesInitialized && CanConfirm(session.capabilities)
         case Ran(owner, tool, arguments, via) =>
           && owner == Some(id)
           && tool in config.catalog
           && session.capabilitiesInitialized
           && (via.None? ==> config.catalog[tool] == Safe && exists callId, digest :: Ordered(config, message, env, tool, callId, digest))
           && (via.Some? ==> Confirmed(before, id, message, env, tool, arguments, via.value))
         case HelloAccepted(session', _) => session' == id && !session.capabilitiesInitialized
         case _ => false
       }
  }

  /** A confirmed run consumes a live record of this very session, named by the message. */
  ghost predicate Confirmed(before: State, id: string, message: Option<ClientMessage>, env: Env, tool: string,
                            arguments: Arguments, record: Pending)
  {
    && record.id in before.pending && before.pending[record.id] == record
    && record.owner == Some(id)
    && record.tool == tool
    && env.clock.act < record.expiresAt
    && message == Some(Confirmation(record.id, true))
    && (record.execution.Some? ==> arguments == record.execution.value)
    && (record.execution.None? ==> env.callbacks.validated == Valid(arguments))
  }

  ghost predicate SameCapabilities(a: Session, b: Session) {
    a.device == b.device && a.capabilities == b.capabilities && a.capabilitiesInitialized == b.capabilitiesInitialized
  }

  ghost predicate Shape(config: Config, before: State, id: string, message: Option<ClientMessage>, env: Env,
                        out: Outcome)
  {
    && |out.events| <= 1
    && (forall e :: e in out.events ==> Justified(config, before, id, message, env, e))
    && (forall m :: m in out.replies && m.ConfirmRequest? ==>
          |out.events| == 1 && out.events[0].Minted? &&
          var record := out.events[0].record;
          m == ConfirmRequest(record.id, record.tool, DeviceLabel(record.tool), record.expiresAt))
    && (forall k :: k in out.state.pending ==>
          (k in before.pending && out.state.pending[k] == before.pending[k]) ||
          (k == env.freshId && out.events == [Minted(out.state.pending[k])]))
    && (forall e :: e in out.events && e.Ran? && e.via.Some? ==> e.via.value.id !in out.state.pending)
    && out.state.sessions.Keys <= before.sessions.Keys
    && (forall e :: e in out.events && e.HelloAccepted? ==>
          id in out.state.sessions && out.state.sessions[id].capabilitiesInitialized)
    && (forall s :: s in out.state.sessions ==>
          SameCapabilities(before.sessions[s], out.state.sessions[s]) ||
          (s == id && out.state.sessions[s].device == before.sessions[s].device &&
           out.state.sessions[s].capabilitiesInitialized &&
           out.events == [HelloAccepted(s, out.state.sessions[s].capabilities)]))
  }

  /** `later` is `earlier` minus some sessions and records; only screens and times differ. */
  ghost predicate Narrower(later: State, earlier: State) {
    && (forall k :: k in later.pending ==> k in earlier.pending && later.pending[k] == earlier.pending[k])
    && later.sessions.Keys <= earlier.sessions.Keys
    && (forall s :: s in later.sessions ==> SameCapabilities(earlier.sessions[s], later.sessions[s]))
  }

  /** A shape seen from a narrower state is a shape seen from the wider one. */
  lemma Widen(config: Config, earlier: State, later: State, id: string, message: Option<ClientMessage>, env: Env,
              out: Outcome)
    requires Narrower(later, earlier) && Shape(config, later, id, message, env, out)
    ensures Shape(config, earlier, id, message, env, out)
  {
    forall e | e in out.events
      ensures Justified(config, earlier, id, message, env, e)
    {
      assert Justified(config, later, id, message, env, e);
      assert SameCapabilities(earlier.sessions[id], later.sessions[id]);
      if e.Ran? && e.via.Some? {
        assert Confirmed(later, id, message, env, e.tool, e.arguments, e.via.value);
        assert Confirmed(earlier, id, message, env, e.tool, e.arguments, e.via.value);
      }
    }
    forall s | s in out.state.sessions
      ensures SameCapabilities(earlier.sessions[s], out.state.sessions[s]) ||
              (s == id && out.state.sessions[s].device == earlier.sessions[s].device &&
               out.state.sessions[s].capabilitiesInitialized &&
               out.events == [HelloAccepted(s, out.state.sessions[s].capabilities)])
    {
      assert SameCapabilities(earlier.sessions[s], later.sessions[s]);
    }
  }

  /** A call without events that asks nothing has the shape whatever it was. */
  lemma Quiet(config: Config, before: State, id: string, message: Option<ClientMessage>, env: Env, out: Outcome)
    requires out.events == [] && Narrower(out.state, before)
    requires forall m :: m in out.replies ==> !m.ConfirmRequest?
    ensures Shape(config, before, id, message, env, out)
  {
  }

  /** A call with one event that changes no session's capabilities. */
  lemma OneEvent(config: Config, before: State, id: string, message: Option<ClientMessage>, env: Env, out: Outcome, e: Event)
    requires out.events == [e] && (e.Minted? || e.Ran?) && Justified(config, before, id, message, env, e)
    requires forall m :: m in out.replies && m.ConfirmRequest? ==>
               e.Minted? && m == ConfirmRequest(e.record.id, e.record.tool, DeviceLabel(e.record.tool), e.record.expiresAt)
    requires forall k :: k in out.state.pending ==>
               (k in before.pending && out.state.pending[k] == before.pending[k]) ||
               (k == env.freshId && e == Minted(out.state.pending[k]))
    requires e.Ran? && e.via.Some? ==> e.via.value.id !in out.state.pending
    requires Narrower(out.state.(pending := map[]), before)
    ensures Shape(config, before, id, message, env, out)
  {
  }

  /** An unconfirmed `invoke` asks, runs a safe tool, or does nothing. */
  lemma InvokeCases(table: Table, catalog: Catalog, ttl: int, tool: string, owner: Option<string>,
                    callId: Option<string>, digest: Option<string>, callbacks: Callbacks, freshId: string, now: int)
    ensures var (after, invocation, events) :=
              InvokeIn(table, catalog, ttl, tool, None, owner, callId, digest, callbacks, freshId, now);
            if invocation.NeedsConfirmation? then
              var record := invocation.record;
              && events == [Minted(record)]
              && record.id == freshId && record.owner == owner && record.tool == tool && record.expiresAt == now + ttl
              && record.callId == callId && record.digest == digest
              && tool in catalog && catalog[tool] == Unsafe
              && after == Unexpired(table, now)[freshId := record]
            else
              && (forall k :: k in after ==> k in table && after[k] == table[k])
              && (events == [] ||
                  (tool in catalog && catalog[tool] == Safe && callbacks.validated.Valid? &&
                   events == [Ran(owner, tool, callbacks.validated.value, None)]))
  {
  }

  lemma InvokeToolShape(config: Config, core: State, id: string, tool: string, arguments: Arguments,
                        callId: Option<string>, digest: Option<string>, env: Env, message: Option<ClientMessage>)
    requires id in core.sessions && core.sessions[id].capabilitiesInitialized
    requires tool in config.catalog && config.catalog[tool] == Unsafe ==> CanConfirm(core.sessions[id].capabilities)
    requires OrderOf(config, message, env) == Some(Order(tool, arguments, callId, digest))
    ensures Shape(config, core, id, message, env, InvokeToolIn(config, core, id, tool, arguments, callId, digest, env))
  {
    hide Shape, InvokeIn, DeviceLabel;
    var out := InvokeToolIn(config, core, id, tool, arguments, callId, digest, env);
    InvokeCases(core.pending, config.catalog, config.ttl, tool, Some(id), callId, digest, env.callbacks, env.freshId,
                env.clock.act);
    assert Ordered(config, message, env, tool, callId, digest);
    if out.events == [] {
      Quiet(config, core, id, message, env, out);
    } else {
      OneEvent(config, core, id, message, env, out, out.events[0]);
    }
  }

  lemma RunToolShape(config: Config, core: State, id: string, tool: string, arguments: Arguments,
                     callId: Option<string>, digest: Option<string>, env: Env, message: Option<ClientMessage>)
    requires id in core.sessions && core.sessions[id].capabilitiesInitialized
    requires OrderOf(config, message, env) == Some(Order(tool, arguments, callId, digest))
    ensures Shape(config, core, id, message, env, RunToolIn(config, core, id, tool, arguments, callId, digest, env))
  {
    var out := RunToolIn(config, core, id, tool, arguments, callId, digest, env);
    if tool == "remember_fact" || tool == "recall_memory" ||
       (tool in config.catalog && config.catalog[tool] == Unsafe && !CanConfirm(core.sessions[id].capabilities))
    {
      Quiet(config, core, id, message, env, out);
    } else {
      var thinking := InState(core, id, Thinking);
      InvokeToolShape(config, thinking, id, tool, arguments, callId, digest, env, message);
      Widen(config, core, thinking, id, message, env, out);
    }
  }

  lemma RouteTranscriptShape(config: Config, core: State, id: string, env: Env, message: Option<ClientMessage>)
    requires id in core.sessions && core.sessions[id].capabilitiesInitialized
    requires message.None? || message.value.TextInput?
    ensures Shape(config, core, id, message, env, RouteTranscriptIn(config, core, id, env))
  {
    if env.intent.Recognized? {
      RunToolShape(config, core, id, env.intent.tool, env.intent.arguments, None, None, env, message);
    } else {
      Quiet(config, core, id, message, env, RouteTranscriptIn(config, core, id, env));
    }
  }

  /** `resolve_confirmation` runs the record it is asked for, with its own arguments, or nothing. */
  lemma ResolveCases(table: Table, catalog: Catalog, confirmation: string, accepted: bool, id: string, callbacks: Callbacks, now: int)
    requires forall k :: k in table ==> table[k].owner.Some?
    ensures var (after, _, events) := ResolveIn(table, catalog, confirmation, accepted, Some(id), callbacks, now);
            && (forall k :: k in after ==> k in table && after[k] == table[k])
            && (events == [] ||
                (&& accepted && confirmation in table && confirmation !in after
                 && var record := table[confirmation];
                    && record.owner == Some(id) && now < record.expiresAt && record.tool in catalog
                    && if record.execution.Some? then events == [Ran(Some(id), record.tool, record.execution.value, Some(record))]
                       else callbacks.validated.Valid? && events == [Ran(Some(id), record.tool, callbacks.validated.value, Some(record))]))
  {
  }

  lemma ResolveShape(config: Config, core: State, id: string, confirmation: string, accepted: bool, env: Env)
    requires id in core.sessions && core.sessions[id].capabilitiesInitialized && Keyed(core.pending)
    requires forall k :: k in core.pending ==> core.pending[k].owner.Some?
    ensures Shape(config, core, id, Some(Confirmation(confirmation, accepted)), env,
                  ResolveMessage(config, core, id, confirmation, accepted, env))
  {
    hide Shape, OrderOf, Ordered, DeviceLabel, ResolveIn;
    var out := ResolveMessage(config, core, id, confirmation, accepted, env);
    var message := Some(Confirmation(confirmation, accepted));
    ResolveCases(core.pending, config.catalog, confirmation, accepted, id, env.callbacks, env.clock.act);
    assert Narrower(out.state, core);
    if out.events == [] {
      Quiet(config, core, id, message, env, out);
    } else {
      var record := core.pending[confirmation];
      assert Confirmed(core, id, message, env, out.events[0].tool, out.events[0].arguments, record);
      OneEvent(config, core, id, message, env, out, out.events[0]);
    }
  }

  /** Requests that change at most the screen and what is pending. */
  lemma PlainRequestShape(config: Config, core: State, id: string, message: ClientMessage, env: Env)
    requires id in core.sessions && !message.TextInput? && !message.Confirmation?
    requires message.ToolCall? ==> message.digest.Some? && config.digestOf(message.tool, message.arguments) != message.digest
    ensures Shape(config, core, id, Some(message), env, RequestIn(config, core, id, message, env))
  {
    hide RunToolIn, RouteTranscriptIn, ResolveMessage, DeviceLabel, Justified, Shape;
    var out := RequestIn(config, core, id, message, env);
    Quiet(config, core, id, Some(message), env, out);
  }

  lemma RequestShape(config: Config, core: State, id: string, message: ClientMessage, env: Env)
    requires id in core.sessions && Keyed(core.pending)
    requires core.sessions[id].capabilitiesInitialized || message.Abort?
    requires forall k :: k in core.pending ==> core.pending[k].owner.Some?
    ensures Shape(config, core, id, Some(message), env, RequestIn(config, core, id, message, env))
  {
    hide RunToolIn, RouteTranscriptIn, ResolveMessage, DeviceLabel, Justified, Shape;
    match message {
      case TextInput(_) => RouteTranscriptShape(config, core, id, env, Some(message));
      case ToolCall(tool, arguments, callId, digest) =>
        if digest.Some? && config.digestOf(tool, arguments) != digest {
          PlainRequestShape(config, core, id, message, env);
        } else {
          RunToolShape(config, core, id, tool, arguments, callId, digest, env, Some(message));
        }
      case Confirmation(confirmation, accepted) => ResolveShape(config, core, id, confirmation, accepted, env);
      case _ => PlainRequestShape(config, core, id, message, env);
    }
  }

  lemma DispatchShape(config: Config, core: State, id: string, message: ClientMessage, env: Env)
    requires id in core.sessions && Keyed(core.pending)
    requires forall k :: k in core.pending ==> core.pending[k].owner.Some?
    ensures Shape(config, core, id, Some(message), env, DispatchIn(config, core, id, message, env))
  {
    var session := core.sessions[id];
    var out := DispatchIn(config, core, id, message, env);
    if message.Ping? || message.DeviceStatus? || message.DeviceHello? {
      if out.events == [] {
        Quiet(config, core, id, Some(message), env, out);
      }
    } else if (!session.capabilitiesInitialized && !message.Abort?) || message.CatalogRequest? ||
              (session.state == Confirm && !message.Abort? && !message.Confirmation?) {
      Quiet(config, core, id, Some(message), env, out);
    } else {
      RequestShape(config, core, id, message, env);
    }
  }

  /** The same shape, seen from the state before pruning and touching. */
  lemma HandleShape(config: Config, core: State, id: string, message: ClientMessage, env: Env)
    requires Keyed(core.pending)
    requires forall k :: k in core.pending ==> core.pending[k].owner.Some?
    ensures Shape(config, core, id, Some(message), env, HandleIn(config, core, id, message, env))
  {
    var live := PruneStale(core, env.clock.prune);
    var out := HandleIn(config, core, id, message, env);
    if id in live.sessions {
      var touched := Touched(live, id, env.clock.touch);
      DispatchShape(config, touched, id, message, env);
      Widen(config, core, touched, id, Some(message), env, out);
    } else {
      Quiet(config, core, id, Some(message), env, out);
    }
  }

  lemma HandleTranscriptShape(config: Config, core: State, id: string, env: Env)
    ensures Shape(config, core, id, None, env, HandleTranscriptIn(config, core, id, env))
  {
    var out := HandleTranscriptIn(config, core, id, env);
    if id in core.sessions && core.sessions[id].capabilitiesInitialized && core.sessions[id].state != Confirm {
      var touched := Touched(core, id, env.clock.touch);
      RouteTranscriptShape(config, touched, id, env, None);
      Widen(config, core, touched, id, None, env, out);
    } else {
      Quiet(config, core, id, None, env, out);
    }
  }
}

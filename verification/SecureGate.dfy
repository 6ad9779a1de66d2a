/**
 * The confirmation gate over v2 sessions, whose lines travel as encrypted records
 * (windows-agent/secure_core_connection.py, firmware/src/pipa_secure_protocol.cpp).
 *
 * `ConfirmationGate` assumes that a device's `confirm` and a request shown on its screen are not forged. Here every v2
 * session has a record layer under a network that may do anything, and both facts are derived: each step of this
 * system is a step of the gate. They remain assumptions for v1 sessions only.
 */
module SecureGate {
  import opened Prelude
  import opened Framing
  import opened Core
  import opened Firmware
  import RL = RecordLayer
  import Gate = ConfirmationGate

  /** What each side makes of a decrypted payload; `None` is a payload it rejects. */
  datatype Codec = Codec(request: bytes -> Option<ClientMessage>, reply: bytes -> Option<ServerMessage>)

  /** The gate, and one pair of record-layer ends for every v2 session. */
  datatype System = System(gate: Gate.System, links: map<string, RL.World>)

  datatype Action =
    | Plain(step: Gate.Action)
    | OpenLink(device: string, capabilities: seq<string>, env: Env, world: RL.World)
    | DeviceSeals(session: string, payload: bytes)
    | HostSeals(session: string, payload: bytes)
    | HostOpens(session: string, frame: RL.Frame, env: Env)
    | DeviceOpens(session: string, frame: RL.Frame)
    | CloseEnd(session: string, role: RL.Role)

  ghost predicate Init(s: System) {
    Gate.Init(s.gate) && s.links == map[]
  }

  /** A line or an opening that does not travel over a v2 session. */
  predicate Outside(s: System, step: Gate.Action) {
    match step
    case Message(session, _, _) => session !in s.links
    case OpenSession(v1, _, _, _) => v1
    case Deliver(device, _, _) => device in s.gate.devices && !s.gate.devices[device].secure
    case _ => true
  }

  /** `sendConfirmation` alone makes a `confirm`, for what is on the screen. */
  ghost predicate DeviceMaySeal(codec: Codec, gate: Gate.System, session: string, payload: bytes) {
    var line := codec.request(payload);
    line.Some? && line.value.Confirmation? && session in gate.openedBy && gate.openedBy[session] in gate.devices ==>
      line.value in Gate.At(gate.up, gate.openedBy[session])
  }

  /** The connection seals only what the Core replied, and its own protocol errors. */
  ghost predicate HostMaySeal(codec: Codec, gate: Gate.System, session: string, payload: bytes) {
    var line := codec.reply(payload);
    line.Some? && line.value.ConfirmRequest? && session in gate.openedBy ==>
      line.value in Gate.At(gate.down, gate.openedBy[session])
  }

  ghost predicate Enabled(codec: Codec, config: Config, s: System, a: Action) {
    match a
    case Plain(step) => Gate.Enabled(config, s.gate, step) && Outside(s, step)
    case OpenLink(device, capabilities, env, world) =>
      && Gate.Enabled(config, s.gate, Gate.OpenSession(false, device, capabilities, env))
      && exists id, m, c, v :: RL.Init(world, id, m, c, v)
    case DeviceSeals(session, payload) => session in s.links && DeviceMaySeal(codec, s.gate, session, payload)
    case HostSeals(session, payload) => session in s.links && HostMaySeal(codec, s.gate, session, payload)
    case HostOpens(session, frame, env) =>
      && session in s.links && RL.CanDeliver(s.links[session], frame)
      && CoreTimely(config, s.gate, env)
    case DeviceOpens(session, frame) =>
      && session in s.links && RL.CanDeliver(s.links[session], frame)
      && session in s.gate.openedBy && s.gate.openedBy[session] in s.gate.devices
    case CloseEnd(session, _) => session in s.links
  }

  /** What the gate asks of any call on the Core: time moves forward and ids are fresh. */
  ghost predicate CoreTimely(config: Config, gate: Gate.System, env: Env) {
    Gate.Enabled(config, gate, Gate.Transcript("", env))
  }

  /** What the host makes of a frame: nothing, the end of the session, or one message for the Core. */
  function HostStep(codec: Codec, s: System, session: string, frame: RL.Frame, env: Env): Option<Gate.Action>
    requires session in s.links
  {
    var r := RL.OpenIn(s.links[session].server.end, frame, JSON_AAD).1;
    if r.Failure? then Some(Gate.CloseSession(session))
    else
      var message := codec.request(r.value);
      if message.None? then None else Some(Gate.Message(session, message.value, env))
  }

  /** What the device makes of one: a line, or the end of its session. */
  function DeviceStep(codec: Codec, s: System, session: string, frame: RL.Frame): Gate.Action
    requires session in s.links && session in s.gate.openedBy
  {
    var device := s.gate.openedBy[session];
    var r := RL.OpenIn(s.links[session].client.end, frame, JSON_AAD).1;
    if r.Failure? || codec.reply(r.value).None? then Gate.LoseServer(device)
    else Gate.Deliver(device, codec.reply(r.value).value, true)
  }

  /** The step of the gate behind a step of this system, if there is one. */
  ghost function Shadow(codec: Codec, config: Config, s: System, a: Action): Option<Gate.Action>
    requires Enabled(codec, config, s, a)
  {
    match a
    case Plain(step) => Some(step)
    case OpenLink(device, capabilities, env, _) => Some(Gate.OpenSession(false, device, capabilities, env))
    case HostOpens(session, frame, env) => HostStep(codec, s, session, frame, env)
    case DeviceOpens(session, frame) => Some(DeviceStep(codec, s, session, frame))
    case _ => None
  }

  ghost function LinksAfter(codec: Codec, config: Config, s: System, a: Action): map<string, RL.World>
    requires Enabled(codec, config, s, a)
  {
    match a
    case Plain(_) => s.links
    case OpenLink(_, _, env, world) => s.links[env.freshId := world]
    case DeviceSeals(session, payload) => s.links[session := RL.Next(s.links[session], RL.Seal(RL.Client, payload, JSON_AAD))]
    case HostSeals(session, payload) => s.links[session := RL.Next(s.links[session], RL.Seal(RL.Server, payload, JSON_AAD))]
    case HostOpens(session, frame, _) => s.links[session := Opened(s.links[session], RL.Server, frame)]
    case DeviceOpens(session, frame) => s.links[session := Opened(s.links[session], RL.Client, frame)]
    case CloseEnd(session, role) => s.links[session := RL.Next(s.links[session], RL.Close(role))]
  }

  /** A frame that does not open ends the session on that side. */
  function Opened(world: RL.World, role: RL.Role, frame: RL.Frame): RL.World {
    var after := RL.Next(world, RL.Deliver(role, frame, JSON_AAD));
    if RL.OpenIn(RL.At(world, role).end, frame, JSON_AAD).1.Failure? then RL.Next(after, RL.Close(role)) else after
  }

  /** The gate moves by the step behind this one, if the gate allows it, and otherwise rests. */
  ghost function Next(codec: Codec, config: Config, s: System, a: Action): System
    requires Enabled(codec, config, s, a)
  {
    var step := Shadow(codec, config, s, a);
    System(if step.Some? && Gate.Enabled(config, s.gate, step.value) then Gate.Next(config, s.gate, step.value) else s.gate,
           LinksAfter(codec, config, s, a))
  }

  // ----- The invariant -----

  /** Everything sealed as a control record by either side of a session may be sealed by it. */
  ghost predicate Honest(codec: Codec, gate: Gate.System, session: string, world: RL.World) {
    && RL.Inv(world)
    && (forall r :: r in world.client.sent && r.data == JSON_AAD ==> DeviceMaySeal(codec, gate, session, r.payload))
    && (forall r :: r in world.server.sent && r.data == JSON_AAD ==> HostMaySeal(codec, gate, session, r.payload))
  }

  ghost predicate Inv(codec: Codec, config: Config, s: System) {
    && Gate.Inv(config, s.gate) && s.links.Keys <= s.gate.used
    && forall session :: session in s.links ==> Honest(codec, s.gate, session, s.links[session])
  }

  /** Channels, ids and sessions of the gate are only added to. */
  ghost predicate Grows(before: Gate.System, after: Gate.System) {
    && before.used <= after.used && after.devices.Keys == before.devices.Keys
    && (forall d :: Gate.At(before.up, d) <= Gate.At(after.up, d) && Gate.At(before.down, d) <= Gate.At(after.down, d))
    && (forall id :: id in before.openedBy ==> id in after.openedBy && after.openedBy[id] == before.openedBy[id])
    && (forall id :: id in after.openedBy ==> id in before.openedBy || id !in before.used)
  }

  lemma GateGrows(config: Config, s: Gate.System, step: Gate.Action)
    requires Gate.Inv(config, s) && Gate.Enabled(config, s, step)
    ensures Grows(s, Gate.Next(config, s, step))
  {
    hide Gate.Inv, Grows, HandleIn, HandleTranscriptIn, Open, ReceiveSecure, Receive, Touch, ConfirmationFor, Reset, Closed;
    match step
    case Message(session, message, env) => CallGrows(s, session, HandleIn(config, s.core, session, message, env), env);
    case Transcript(session, env) => CallGrows(s, session, HandleTranscriptIn(config, s.core, session, env), env);
    case OpenSession(_, device, _, env) => OpeningGrows(config, s, Gate.Next(config, s, step), env.freshId, device);
    case TouchScreen(device) => SendingGrows(s, device, Touch(s.devices[device]));
    case Answer(device, accepted) => SendingGrows(s, device, ConfirmationFor(s.devices[device], accepted));
    case CloseSession(_) => SameGrows(s, Gate.Next(config, s, step));
    case Deliver(_, _, _) => SameGrows(s, Gate.Next(config, s, step));
    case LoseServer(_) => SameGrows(s, Gate.Next(config, s, step));
    case HandshakeDone(_) => SameGrows(s, Gate.Next(config, s, step));
  }

  lemma CallGrows(s: Gate.System, session: string, out: Outcome, env: Env)
    ensures Grows(s, Gate.AfterCall(s, session, out, env))
  {
  }

  lemma OpeningGrows(config: Config, s: Gate.System, after: Gate.System, id: string, device: string)
    requires Gate.Inv(config, s) && id !in s.used
    requires after.up == s.up && after.down == s.down && after.devices == s.devices && after.used == s.used + {id}
    requires after.openedBy == s.openedBy || after.openedBy == s.openedBy[id := device]
    ensures Grows(s, after)
  {
    hide Gate.LogExplained, Gate.CapabilitiesKnown, Gate.PendingKnown, Gate.DownKnown, Gate.DevicesKnown, Gate.UpKnown;
  }

  lemma SendingGrows(s: Gate.System, device: string, line: Option<ClientMessage>)
    requires device in s.devices
    ensures Grows(s, Gate.Sent(s, device, line))
  {
  }

  lemma SameGrows(s: Gate.System, after: Gate.System)
    requires after.up == s.up && after.down == s.down && after.used == s.used && after.openedBy == s.openedBy
    requires after.devices.Keys == s.devices.Keys
    ensures Grows(s, after)
  {
  }

  lemma StillHonest(codec: Codec, before: Gate.System, after: Gate.System, session: string, world: RL.World)
    requires Honest(codec, before, session, world) && Grows(before, after) && session in before.used
    ensures Honest(codec, after, session, world)
  {
    hide RL.Inv;
  }

  // ----- Every step is a step of the gate -----

  /** What opens as a control record was sealed as one by the other side. */
  lemma OpenedWasSealed(world: RL.World, role: RL.Role, frame: RL.Frame)
    requires RL.Inv(world) && RL.CanDeliver(world, frame)
    ensures var r := RL.OpenIn(RL.At(world, role).end, frame, JSON_AAD).1;
            r.Success? ==> RL.Record(r.value, JSON_AAD) in RL.At(world, RL.Peer(role)).sent
  {
    RL.OpensExactlyTheNext(world, role, frame, JSON_AAD);
  }

  /**
   * A confirm that the host takes from a device's v2 session was sent by that device, and a confirmation request that
   * the device takes was a reply of the Core: the gate's assumptions hold of every step.
   */
  lemma StepIsGateStep(codec: Codec, config: Config, s: System, a: Action)
    requires Inv(codec, config, s) && Enabled(codec, config, s, a)
    ensures var step := Shadow(codec, config, s, a);
            && (step.Some? ==> Gate.Enabled(config, s.gate, step.value) &&
                               Next(codec, config, s, a).gate == Gate.Next(config, s.gate, step.value))
            && (step.None? ==> Next(codec, config, s, a).gate == s.gate)
  {
    hide Gate.Inv, RL.OpenIn, RL.CanDeliver, Gate.Next, LinksAfter, RL.Inv;
    match a
    case HostOpens(session, frame, _) =>
      assert Honest(codec, s.gate, session, s.links[session]);
      OpenedWasSealed(s.links[session], RL.Server, frame);
    case DeviceOpens(session, frame) =>
      assert Honest(codec, s.gate, session, s.links[session]);
      OpenedWasSealed(s.links[session], RL.Client, frame);
    case _ =>
  }

  // ----- Every step keeps the invariant -----

  lemma SealStaysHonest(codec: Codec, gate: Gate.System, session: string, world: RL.World, role: RL.Role, payload: bytes)
    requires Honest(codec, gate, session, world)
    requires if role == RL.Client then DeviceMaySeal(codec, gate, session, payload) else HostMaySeal(codec, gate, session, payload)
    ensures Honest(codec, gate, session, RL.Next(world, RL.Seal(role, payload, JSON_AAD)))
  {
    hide RL.Inv, RL.SealIn, DeviceMaySeal, HostMaySeal;
    RL.StepKeepsInv(world, RL.Seal(role, payload, JSON_AAD));
  }

  lemma CloseStaysHonest(codec: Codec, gate: Gate.System, session: string, world: RL.World, role: RL.Role)
    requires Honest(codec, gate, session, world)
    ensures Honest(codec, gate, session, RL.Next(world, RL.Close(role)))
  {
    hide RL.Inv, DeviceMaySeal, HostMaySeal;
    RL.StepKeepsInv(world, RL.Close(role));
  }

  lemma OpenStaysHonest(codec: Codec, gate: Gate.System, session: string, world: RL.World, role: RL.Role, frame: RL.Frame)
    requires Honest(codec, gate, session, world) && RL.CanDeliver(world, frame)
    ensures Honest(codec, gate, session, Opened(world, role, frame))
  {
    hide RL.Inv, RL.OpenIn, RL.CanDeliver, DeviceMaySeal, HostMaySeal;
    RL.StepKeepsInv(world, RL.Deliver(role, frame, JSON_AAD));
    CloseStaysHonest(codec, gate, session, RL.Next(world, RL.Deliver(role, frame, JSON_AAD)), role);
  }

  lemma NewLinkIsHonest(codec: Codec, gate: Gate.System, session: string, world: RL.World)
    requires exists id, m, c, v :: RL.Init(world, id, m, c, v)
    ensures Honest(codec, gate, session, world)
  {
    hide Header, Nonce;
  }

  /** The link of the session that moved, after the step. */
  lemma MovedLinkIsHonest(codec: Codec, config: Config, s: System, a: Action, session: string)
    requires Inv(codec, config, s) && Enabled(codec, config, s, a) && session in LinksAfter(codec, config, s, a)
    ensures Honest(codec, s.gate, session, LinksAfter(codec, config, s, a)[session])
  {
    hide Gate.Inv, Gate.Enabled, Honest, RL.Next, RL.CanDeliver, Opened, DeviceMaySeal, HostMaySeal;
    match a
    case Plain(_) =>
    case OpenLink(_, _, env, world) => NewLinkIsHonest(codec, s.gate, env.freshId, world);
    case DeviceSeals(k, payload) => SealStaysHonest(codec, s.gate, k, s.links[k], RL.Client, payload);
    case HostSeals(k, payload) => SealStaysHonest(codec, s.gate, k, s.links[k], RL.Server, payload);
    case HostOpens(k, frame, _) => OpenStaysHonest(codec, s.gate, k, s.links[k], RL.Server, frame);
    case DeviceOpens(k, frame) => OpenStaysHonest(codec, s.gate, k, s.links[k], RL.Client, frame);
    case CloseEnd(k, role) => CloseStaysHonest(codec, s.gate, k, s.links[k], role);
  }

  lemma StepKeepsInv(codec: Codec, config: Config, s: System, a: Action)
    requires Inv(codec, config, s) && Enabled(codec, config, s, a)
    ensures Inv(codec, config, Next(codec, config, s, a))
  {
    hide Gate.Inv, Gate.Enabled, Gate.Next, Honest, LinksAfter, Grows, Enabled, Shadow;
    var after, step := Next(codec, config, s, a), Shadow(codec, config, s, a);
    StepIsGateStep(codec, config, s, a);
    if step.Some? {
      Gate.StepKeepsInv(config, s.gate, step.value);
      GateGrows(config, s.gate, step.value);
    } else {
      RestingGrows(s.gate);
    }
    LinksAreUsed(codec, config, s, a);
    forall session | session in after.links
      ensures Honest(codec, after.gate, session, after.links[session])
    {
      MovedLinkIsHonest(codec, config, s, a, session);
      if session in s.links {
        StillHonest(codec, s.gate, after.gate, session, after.links[session]);
      } else {
        NewestLink(codec, config, s, a, session);
      }
    }
  }

  lemma RestingGrows(gate: Gate.System)
    ensures Grows(gate, gate)
  {
  }

  lemma LinksAreUsed(codec: Codec, config: Config, s: System, a: Action)
    requires Inv(codec, config, s) && Enabled(codec, config, s, a)
    requires Grows(s.gate, Next(codec, config, s, a).gate)
    ensures Next(codec, config, s, a).links.Keys <= Next(codec, config, s, a).gate.used
  {
    hide Gate.Inv, Honest, Open, Opened, RL.Next;
  }

  lemma NewestLink(codec: Codec, config: Config, s: System, a: Action, session: string)
    requires Enabled(codec, config, s, a)
    requires session in LinksAfter(codec, config, s, a) && session !in s.links
    ensures Honest(codec, Next(codec, config, s, a).gate, session, LinksAfter(codec, config, s, a)[session])
  {
    hide Gate.Enabled, Gate.Next, Honest, Opened, RL.Next;
    if a.OpenLink? {
      NewLinkIsHonest(codec, Next(codec, config, s, a).gate, session, a.world);
    }
  }

  // ----- Over every run -----

  ghost predicate Behaviour(codec: Codec, config: Config, states: seq<System>, actions: seq<Action>) {
    && |states| == |actions| + 1 && Init(states[0])
    && forall i :: 0 <= i < |actions| ==>
         Enabled(codec, config, states[i], actions[i]) && states[i + 1] == Next(codec, config, states[i], actions[i])
  }

  lemma {:induction false} BehaviourKeepsInv(codec: Codec, config: Config, states: seq<System>, actions: seq<Action>, i: nat)
    requires Behaviour(codec, config, states, actions) && i < |states|
    ensures Inv(codec, config, states[i])
  {
    hide Inv, Enabled, Next;
    if i == 0 {
      InitInv(codec, config, states[0]);
    } else {
      BehaviourKeepsInv(codec, config, states, actions, i - 1);
      assert states[i - 1 + 1] == Next(codec, config, states[i - 1], actions[i - 1]);
      StepKeepsInv(codec, config, states[i - 1], actions[i - 1]);
    }
  }

  lemma InitInv(codec: Codec, config: Config, s: System)
    requires Init(s)
    ensures Inv(codec, config, s)
  {
    Gate.InitInv(config, s.gate);
  }

  /**
   * The gate over v2 sessions, with nothing assumed of their network: whenever a handler has run through a
   * confirmation, it was shown and tapped as `ConfirmationGate.RunWasShown` says.
   */
  lemma SecureRunsWereShown(codec: Codec, config: Config, states: seq<System>, actions: seq<Action>, i: nat, k: nat)
    requires Behaviour(codec, config, states, actions) && i < |states|
    requires k < |states[i].gate.log| && states[i].gate.log[k].Ran? && states[i].gate.log[k].via.Some?
    ensures Gate.RunWasShown(states[i].gate, k)
  {
    hide Gate.Inv, Honest, Behaviour, Gate.RunWasShown;
    BehaviourKeepsInv(codec, config, states, actions, i);
    Gate.ConfirmedRunWasShown(config, states[i].gate, k);
  }

  /** What the other side sealed next. */
  function NextPayload(world: RL.World, role: RL.Role): Option<bytes> {
    var sent, n := RL.At(world, RL.Peer(role)).sent, |RL.At(world, role).received|;
    if n < |sent| then Some(sent[n].payload) else None
  }

  predicate IsNext(world: RL.World, role: RL.Role, frame: RL.Frame)
    requires RL.Inv(world)
  {
    RL.IsNextFrame(RL.At(world, RL.Peer(role)), RL.At(world, role), frame, JSON_AAD)
  }

  /**
   * The Core is handed a message of a v2 session exactly when the frame is the device's next control record and reads as
   * that message; every other frame ends the session.
   */
  lemma HostHearsExactly(codec: Codec, config: Config, states: seq<System>, actions: seq<Action>, i: nat,
                         session: string, frame: RL.Frame, env: Env, message: ClientMessage)
    requires Behaviour(codec, config, states, actions) && i < |states|
    requires Enabled(codec, config, states[i], HostOpens(session, frame, env))
    ensures RL.Inv(states[i].links[session])
    ensures var s, world := states[i], states[i].links[session];
            var next, step := IsNext(world, RL.Server, frame), Shadow(codec, config, s, HostOpens(session, frame, env));
            var read := if next then codec.request(NextPayload(world, RL.Server).value) else None;
            && (step == Some(Gate.Message(session, message, env)) <==> read == Some(message))
            && (step == Some(Gate.CloseSession(session)) <==> !next)
            && (step.Some? ==>
                  && Gate.Enabled(config, s.gate, step.value)
                  && Next(codec, config, s, HostOpens(session, frame, env)).gate == Gate.Next(config, s.gate, step.value))
            && (step.None? ==> Next(codec, config, s, HostOpens(session, frame, env)).gate == s.gate)
  {
    hide Gate.Inv, RL.OpenIn, RL.CanDeliver, Gate.Next, RL.Inv, RL.IsNextFrame, Gate.Enabled, Behaviour;
    BehaviourKeepsInv(codec, config, states, actions, i);
    StepIsGateStep(codec, config, states[i], HostOpens(session, frame, env));
    var world := states[i].links[session];
    assert Honest(codec, states[i].gate, session, world);
    RL.OpensExactlyTheNext(world, RL.Server, frame, JSON_AAD);
    NextIsSealed(world, RL.Server, frame);
  }

  lemma NextIsSealed(world: RL.World, role: RL.Role, frame: RL.Frame)
    requires RL.Inv(world)
    ensures IsNext(world, role, frame) ==>
              && NextPayload(world, role).Some?
              && NextPayload(world, role).value == RL.At(world, RL.Peer(role)).sent[|RL.At(world, role).received|].payload
  {
  }

  /** And the device receives exactly the host's next control record, if it can read it; any other frame loses the server. */
  lemma DeviceHearsExactly(codec: Codec, config: Config, states: seq<System>, actions: seq<Action>, i: nat,
                           session: string, frame: RL.Frame, line: ServerMessage)
    requires Behaviour(codec, config, states, actions) && i < |states|
    requires Enabled(codec, config, states[i], DeviceOpens(session, frame))
    ensures RL.Inv(states[i].links[session])
    ensures var s, world, device := states[i], states[i].links[session], states[i].gate.openedBy[session];
            var next := IsNext(world, RL.Client, frame);
            var after := Next(codec, config, s, DeviceOpens(session, frame)).gate;
            && (next && codec.reply(NextPayload(world, RL.Client).value) == Some(line) ==>
                  && Gate.Enabled(config, s.gate, Gate.Deliver(device, line, true))
                  && after == Gate.Next(config, s.gate, Gate.Deliver(device, line, true)))
            && (!next || codec.reply(NextPayload(world, RL.Client).value).None? ==>
                  && Gate.Enabled(config, s.gate, Gate.LoseServer(device))
                  && after == Gate.Next(config, s.gate, Gate.LoseServer(device)))
  {
    hide Gate.Inv, RL.OpenIn, RL.CanDeliver, Gate.Next, RL.Inv, RL.IsNextFrame, Gate.Enabled, Behaviour;
    BehaviourKeepsInv(codec, config, states, actions, i);
    StepIsGateStep(codec, config, states[i], DeviceOpens(session, frame));
    var world := states[i].links[session];
    assert Honest(codec, states[i].gate, session, world);
    RL.OpensExactlyTheNext(world, RL.Client, frame, JSON_AAD);
    NextIsSealed(world, RL.Client, frame);
  }
}

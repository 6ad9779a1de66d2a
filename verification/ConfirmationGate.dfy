/**
 * Core, devices and the channels between them as one transition system.
 *
 * A step is one call on the Core, one line reaching a device, or one thing a device does.
 * Everything ever sent stays available, so a line may be lost, repeated, delayed or
 * reordered. Two kinds of line are assumed not to be forged: the request that puts a
 * confirmation on a device's screen, and the `confirm` that arrives on a device's session;
 * every other line may be anything. `SecureGate` derives both assumptions for v2 sessions;
 * on a v1 serial line they remain assumptions. Sessions of clients that are not in `devices`
 * (a phone, a simulator) may send whatever they like. Identifiers come from a random
 * generator and are assumed never to repeat.
 */
module ConfirmationGate {
  import opened Prelude
  import opened Confirmations
  import opened Sessions
  import opened Tools
  import opened Core
  import opened CoreInvariant
  import opened CoreEvents
  import opened Firmware

  datatype System = System(
    core: State,
    now: int,
    devices: map<string, Device>,
    down: map<string, set<ServerMessage>>,
    up: map<string, set<ClientMessage>>,
    used: set<string>,
    openedBy: map<string, string>,
    log: seq<Event>)

  datatype Action =
    | Message(session: string, message: ClientMessage, env: Env)
    | Transcript(session: string, env: Env)
    | OpenSession(v1: bool, device: string, capabilities: seq<string>, env: Env)
    | CloseSession(session: string)
    | Deliver(device: string, line: ServerMessage, signed: bool)
    | TouchScreen(device: string)
    | Answer(device: string, accepted: bool)
    | LoseServer(device: string)
    | HandshakeDone(device: string)

  function At<T>(channel: map<string, set<T>>, device: string): set<T> {
    if device in channel then channel[device] else {}
  }

  function Elements<T>(s: seq<T>): set<T> {
    set x | x in s
  }

  ghost predicate Init(s: System) {
    && s.core == State(map[], map[])
    && (forall d :: d in s.devices ==> s.devices[d].ui == CLEARED && !s.devices[d].authenticated)
    && s.down == map[] && s.up == map[] && s.used == {} && s.openedBy == map[] && s.log == []
  }

  ghost predicate Enabled(config: Config, s: System, a: Action) {
    match a
    case Message(session, message, env) =>
      && Timely(config, env.clock, s.now)
      && env.freshId !in s.used
      && (message.Confirmation? && session in s.openedBy && s.openedBy[session] in s.devices ==>
            message in At(s.up, s.openedBy[session]))
    case Transcript(_, env) => Timely(config, env.clock, s.now) && env.freshId !in s.used
    case OpenSession(_, _, _, env) =>
      s.now <= env.clock.prune <= env.clock.act && env.freshId !in s.used && env.freshId != ""
    case CloseSession(_) => true
    case Deliver(device, line, _) =>
      device in s.devices && (line.ConfirmRequest? ==> line in At(s.down, device))
    case TouchScreen(device) => device in s.devices
    case Answer(device, _) => device in s.devices
    case LoseServer(device) => device in s.devices
    case HandshakeDone(device) => device in s.devices && s.devices[device].secure
  }

  function AfterCall(s: System, session: string, out: Outcome, env: Env): System {
    s.(core := out.state,
       now := env.clock.act,
       down := if session in s.openedBy then
                 s.down[s.openedBy[session] := At(s.down, s.openedBy[session]) + Elements(out.replies)]
               else s.down,
       used := s.used + {env.freshId},
       log := s.log + out.events)
  }

  /** What the device sends joins the channel; an answer is logged with what the screen shows. */
  function Sent(s: System, device: string, line: Option<ClientMessage>): System
    requires device in s.devices
  {
    var ui := s.devices[device].ui;
    if line.None? then s
    else s.(up := s.up[device := At(s.up, device) + {line.value}],
            log := if line.value.Confirmation? then s.log + [Tapped(device, ui.confirmation, ui.summary, line.value.accepted)]
                   else s.log)
  }

  ghost function Next(config: Config, s: System, a: Action): System
    requires Enabled(config, s, a)
  {
    match a
    case Message(session, message, env) => AfterCall(s, session, HandleIn(config, s.core, session, message, env), env)
    case Transcript(session, env) => AfterCall(s, session, HandleTranscriptIn(config, s.core, session, env), env)
    case OpenSession(v1, device, capabilities, env) =>
      var (core, refusal, events) := Open(s.core, v1, device, capabilities, env);
      s.(core := core, now := env.clock.act, used := s.used + {env.freshId}, log := s.log + events,
         openedBy := if refusal.None? then s.openedBy[env.freshId := device] else s.openedBy)
    case CloseSession(session) => s.(core := Closed(s.core, session))
    case Deliver(device, line, signed) =>
      var d := s.devices[device];
      s.(devices := s.devices[device := if d.secure then ReceiveSecure(d, line) else Receive(d, line, signed)])
    case TouchScreen(device) => Sent(s, device, Touch(s.devices[device]))
    case Answer(device, accepted) => Sent(s, device, ConfirmationFor(s.devices[device], accepted))
    case LoseServer(device) => s.(devices := s.devices[device := Reset(s.devices[device])])
    case HandshakeDone(device) => s.(devices := s.devices[device := s.devices[device].(authenticated := true)])
  }

  // ----- What the log says -----

  ghost predicate HasRun(log: seq<Event>, id: string) {
    exists e :: e in log && e.Ran? && e.via.Some? && e.via.value.id == id
  }

  ghost predicate HasMinted(log: seq<Event>, id: string) {
    exists e :: e in log && e.Minted? && e.record.id == id
  }

  ghost predicate HasOpened(log: seq<Event>, session: string) {
    exists e :: e in log && e.Opened? && e.session == session
  }

  ghost predicate HasAnnounced(log: seq<Event>, session: string) {
    exists e :: e in log && e.HelloAccepted? && e.session == session
  }

  /** A record was created for the session, or a handler ran on its behalf. */
  ghost predicate HasActed(log: seq<Event>, session: string) {
    exists e :: e in log && ((e.Minted? && e.record.owner == Some(session)) || (e.Ran? && e.owner == Some(session)))
  }

  /** The session stated these capabilities: when it first (v1) or in its device hello (v2). */
  ghost predicate Announced(log: seq<Event>, session: string, device: string, capabilities: seq<string>) {
    Opened(session, device, true, capabilities) in log || HelloAccepted(session, capabilities) in log
  }

  ghost predicate IsReady(log: seq<Event>, openedBy: map<string, string>, session: string) {
    session in openedBy && exists capabilities :: Announced(log, session, openedBy[session], capabilities)
  }

  /** It has announced both a display and a touch surface. */
  ghost predicate CanAsk(log: seq<Event>, openedBy: map<string, string>, session: string) {
    session in openedBy &&
    exists capabilities :: Announced(log, session, openedBy[session], capabilities) && CanConfirm(capabilities)
  }

  /** A v2 session, which opens without usable capabilities. */
  ghost predicate OpenedSilently(log: seq<Event>, openedBy: map<string, string>, session: string) {
    session in openedBy && exists capabilities :: Opened(session, openedBy[session], false, capabilities) in log
  }

  /** The tap showed a record of this device's own session under exactly its tool's label. */
  ghost predicate Requested(past: seq<Event>, openedBy: map<string, string>, device: string, id: string,
                            summary: string, record: Pending)
  {
    && Minted(record) in past
    && record.id == id && summary == DeviceLabel(record.tool)
    && record.owner.Some? && record.owner.value in openedBy && openedBy[record.owner.value] == device
  }

  /** A record that carries a digest carries that of a request for its own tool. */
  ghost predicate IsBound(config: Config, record: Pending) {
    record.digest.Some? ==> exists arguments :: config.digestOf(record.tool, arguments) == record.digest
  }

  /** One entry is explained by what was logged before it. */
  ghost predicate Explained(config: Config, openedBy: map<string, string>, devices: set<string>,
                            past: seq<Event>, e: Event)
  {
    match e
    case Opened(session, device, _, _) =>
      session in openedBy && openedBy[session] == device && !HasOpened(past, session) && !HasActed(past, session)
    case HelloAccepted(session, _) =>
      && session in openedBy
      && OpenedSilently(past, openedBy, session)
      && !HasAnnounced(past, session) && !HasActed(past, session)
    case Minted(record) =>
      && record.owner.Some? && record.owner.value in openedBy
      && record.tool in config.catalog && config.catalog[record.tool] == Unsafe
      && IsBound(config, record)
      && !HasMinted(past, record.id)
      && CanAsk(past, openedBy, record.owner.value)
    case Tapped(device, id, summary, _) =>
      device in devices && exists record :: Requested(past, openedBy, device, id, summary, record)
    case Ran(owner, tool, arguments, via) =>
      && owner.Some? && owner.value in openedBy
      && tool in config.catalog
      && IsReady(past, openedBy, owner.value)
      && (via.None? ==> config.catalog[tool] == Safe)
      && (via.Some? ==>
            && Minted(via.value) in past
            && via.value.owner == owner && via.value.tool == tool
            && (via.value.execution.Some? ==> arguments == via.value.execution.value)
            && !HasRun(past, via.value.id)
            && (openedBy[owner.value] in devices ==>
                  Tapped(openedBy[owner.value], via.value.id, DeviceLabel(tool), true) in past))
  }

  ghost predicate LogExplained(config: Config, openedBy: map<string, string>, devices: set<string>, log: seq<Event>) {
    forall k :: 0 <= k < |log| ==> Explained(config, openedBy, devices, log[..k], log[k])
  }

  lemma ExplainOneMore(config: Config, openedBy: map<string, string>, devices: set<string>, log: seq<Event>, e: Event)
    requires LogExplained(config, openedBy, devices, log) && Explained(config, openedBy, devices, log, e)
    ensures LogExplained(config, openedBy, devices, log + [e])
  {
    var longer := log + [e];
    forall k | 0 <= k < |longer|
      ensures Explained(config, openedBy, devices, longer[..k], longer[k])
    {
      assert longer[..k] == log[..k];
      if k == |log| {
        assert log[..k] == log;
      }
    }
  }

  lemma ExplainWithOneMoreSession(config: Config, openedBy: map<string, string>, devices: set<string>,
                                  log: seq<Event>, session: string, device: string)
    requires LogExplained(config, openedBy, devices, log) && session !in openedBy
    ensures LogExplained(config, openedBy[session := device], devices, log)
  {
    forall k | 0 <= k < |log|
      ensures Explained(config, openedBy[session := device], devices, log[..k], log[k])
    {
      var past := log[..k];
      assert Explained(config, openedBy, devices, past, log[k]);
      match log[k] {
        case Tapped(d, id, summary, _) =>
          var record :| Requested(past, openedBy, d, id, summary, record);
          assert Requested(past, openedBy[session := device], d, id, summary, record);
        case HelloAccepted(id, _) =>
          var capabilities :| Opened(id, openedBy[id], false, capabilities) in past;
          assert Opened(id, openedBy[session := device][id], false, capabilities) in past;
          assert OpenedSilently(past, openedBy[session := device], id);
        case Minted(record) =>
          assert CanAsk(past, openedBy[session := device], record.owner.value);
        case Ran(owner, _, _, _) =>
          assert IsReady(past, openedBy[session := device], owner.value);
        case Opened(_, _, _, _) =>
      }
    }
  }

  /** Two entries that mint the same id are the same entry, so an id names one record. */
  lemma MintedOnce(config: Config, openedBy: map<string, string>, devices: set<string>, log: seq<Event>,
                   a: Pending, b: Pending)
    requires LogExplained(config, openedBy, devices, log)
    requires Minted(a) in log && Minted(b) in log && a.id == b.id
    ensures a == b
  {
    var i :| 0 <= i < |log| && log[i] == Minted(a);
    var j :| 0 <= j < |log| && log[j] == Minted(b);
    MintedAtOnePlace(config, openedBy, devices, log, if i <= j then i else j, if i <= j then j else i);
  }

  lemma MintedAtOnePlace(config: Config, openedBy: map<string, string>, devices: set<string>, log: seq<Event>,
                         i: nat, j: nat)
    requires LogExplained(config, openedBy, devices, log)
    requires i <= j < |log| && log[i].Minted? && log[j].Minted? && log[i].record.id == log[j].record.id
    ensures i == j
  {
    assert forall k :: 0 <= k < j ==> log[..j][k] == log[k] && log[k] in log[..j];
  }

  // ----- The invariant -----

  ghost predicate SessionsKnown(s: System) {
    && (forall id :: id in s.core.sessions ==> id in s.openedBy && s.openedBy[id] == s.core.sessions[id].device)
    && (forall id :: id in s.openedBy ==> id in s.used)
    && (forall e :: e in s.log && e.Opened? ==> e.session in s.openedBy)
    && (forall e :: e in s.log && e.HelloAccepted? ==> e.session in s.openedBy)
    && (forall e :: e in s.log && e.Minted? ==> e.record.owner.Some? && e.record.owner.value in s.openedBy)
    && (forall e :: e in s.log && e.Ran? ==> e.owner.Some? && e.owner.value in s.openedBy)
  }

  ghost predicate CapabilitiesOf(log: seq<Event>, openedBy: map<string, string>, id: string, session: Session) {
    && id in openedBy
    && if session.capabilitiesInitialized then Announced(log, id, openedBy[id], session.capabilities)
       else OpenedSilently(log, openedBy, id) && !HasAnnounced(log, id) && !HasActed(log, id)
  }

  /** A live session either has announced its capabilities, or it is a v2 session that did nothing. */
  ghost predicate CapabilitiesKnown(s: System) {
    forall id :: id in s.core.sessions ==> CapabilitiesOf(s.log, s.openedBy, id, s.core.sessions[id])
  }

  ghost predicate PendingKnown(s: System) {
    && (forall k :: k in s.core.pending ==> Minted(s.core.pending[k]) in s.log && !HasRun(s.log, k))
    && (forall e :: e in s.log && e.Minted? ==> e.record.id in s.used)
    && (forall e :: e in s.log && e.Ran? && e.via.Some? ==> e.via.value.id in s.used)
  }

  ghost predicate DownKnown(s: System) {
    forall d, m :: d in s.down && m in s.down[d] && m.ConfirmRequest? ==>
      exists record :: Requested(s.log, s.openedBy, d, m.id, m.summary, record)
  }

  ghost predicate DevicesKnown(s: System) {
    forall d :: d in s.devices ==>
      var ui := s.devices[d].ui;
      && (ui.confirmation == "" <==> ui.summary == "")
      && (ui.confirmation != "" ==> exists record :: Requested(s.log, s.openedBy, d, ui.confirmation, ui.summary, record))
  }

  ghost predicate UpKnown(s: System) {
    forall d, m :: d in s.up && m in s.up[d] && m.Confirmation? ==>
      exists summary :: Tapped(d, m.id, summary, m.accepted) in s.log
  }

  ghost predicate Inv(config: Config, s: System) {
    && CoreInv(s.core, s.now)
    && SessionsKnown(s) && CapabilitiesKnown(s) && PendingKnown(s)
    && DownKnown(s) && DevicesKnown(s) && UpKnown(s)
    && LogExplained(config, s.openedBy, s.devices.Keys, s.log)
  }

  lemma InitInv(config: Config, s: System)
    requires Init(s)
    ensures Inv(config, s)
  {
  }

  // ----- Every step keeps it -----

  ghost predicate FromDevice(s: System, session: string, message: Option<ClientMessage>) {
    message.Some? && message.value.Confirmation? && session in s.openedBy && s.openedBy[session] in s.devices ==>
      message.value in At(s.up, s.openedBy[session])
  }

  /** The event of one call on the Core is explained by the log so far. */
  lemma CallExplained(config: Config, s: System, id: string, message: Option<ClientMessage>, env: Env, e: Event)
    requires Inv(config, s) && env.freshId !in s.used && FromDevice(s, id, message)
    requires Justified(config, s.core, id, message, env, e)
    ensures Explained(config, s.openedBy, s.devices.Keys, s.log, e)
  {
    var session := s.core.sessions[id];
    assert CapabilitiesOf(s.log, s.openedBy, id, session);
    match e {
      case Minted(record) =>
        assert CanAsk(s.log, s.openedBy, id);
      case Ran(owner, tool, arguments, via) =>
        assert IsReady(s.log, s.openedBy, id);
        if via.Some? {
          RunExplained(config, s, id, message, env, e);
        }
      case HelloAccepted(_, _) =>
      case _ =>
    }
  }

  /** A logged tap names a record that was minted before it, by its label. */
  lemma TapNamesRecord(config: Config, openedBy: map<string, string>, devices: set<string>, log: seq<Event>,
                       device: string, id: string, summary: string, accepted: bool) returns (record: Pending)
    requires LogExplained(config, openedBy, devices, log) && Tapped(device, id, summary, accepted) in log
    ensures Requested(log, openedBy, device, id, summary, record)
  {
    var k :| 0 <= k < |log| && log[k] == Tapped(device, id, summary, accepted);
    assert Explained(config, openedBy, devices, log[..k], log[k]);
    record :| Requested(log[..k], openedBy, device, id, summary, record);
  }

  lemma RunExplained(config: Config, s: System, id: string, message: Option<ClientMessage>, env: Env, e: Event)
    requires PendingKnown(s) && UpKnown(s) && LogExplained(config, s.openedBy, s.devices.Keys, s.log)
    requires FromDevice(s, id, message) && id in s.openedBy
    requires e.Ran? && e.via.Some? && Confirmed(s.core, id, message, env, e.tool, e.arguments, e.via.value)
    ensures Minted(e.via.value) in s.log && !HasRun(s.log, e.via.value.id)
    ensures s.openedBy[id] in s.devices ==> Tapped(s.openedBy[id], e.via.value.id, DeviceLabel(e.tool), true) in s.log
  {
    hide LogExplained, DeviceLabel;
    var record, device := e.via.value, s.openedBy[id];
    if device in s.devices {
      var summary :| Tapped(device, record.id, summary, true) in s.log;
      var shown := TapNamesRecord(config, s.openedBy, s.devices.Keys, s.log, device, record.id, summary, true);
      MintedOnce(config, s.openedBy, s.devices.Keys, s.log, shown, record);
    }
  }

  lemma CallKeepsLog(config: Config, s: System, id: string, message: Option<ClientMessage>, env: Env, out: Outcome)
    requires Inv(config, s) && env.freshId !in s.used && FromDevice(s, id, message)
    requires Shape(config, s.core, id, message, env, out)
    ensures LogExplained(config, s.openedBy, s.devices.Keys, s.log + out.events)
  {
    if out.events == [] {
      assert s.log + out.events == s.log;
    } else {
      var e := out.events[0];
      assert out.events == [e];
      CallExplained(config, s, id, message, env, e);
      ExplainOneMore(config, s.openedBy, s.devices.Keys, s.log, e);
    }
  }

  ghost predicate Extends(longer: map<string, string>, shorter: map<string, string>) {
    forall id :: id in shorter ==> id in longer && longer[id] == shorter[id]
  }

  /** Nothing in these events is about the session. */
  ghost predicate Silent(events: seq<Event>, id: string) {
    !HasAnnounced(events, id) && !HasActed(events, id)
  }

  lemma CapabilitiesLater(log: seq<Event>, more: seq<Event>, openedBy: map<string, string>,
                          openedBy': map<string, string>, id: string, session: Session)
    requires CapabilitiesOf(log, openedBy, id, session) && Extends(openedBy', openedBy)
    requires session.capabilitiesInitialized || Silent(more, id)
    ensures CapabilitiesOf(log + more, openedBy', id, session)
  {
    if session.capabilitiesInitialized {
      assert Announced(log + more, id, openedBy[id], session.capabilities);
    } else {
      var capabilities :| Opened(id, openedBy[id], false, capabilities) in log;
      assert Opened(id, openedBy'[id], false, capabilities) in log + more;
    }
  }

  lemma DownLater(s: System, after: System)
    requires DownKnown(s) && after.down == s.down && s.log <= after.log && Extends(after.openedBy, s.openedBy)
    ensures DownKnown(after)
  {
    forall d, m | d in after.down && m in after.down[d] && m.ConfirmRequest?
      ensures exists record :: Requested(after.log, after.openedBy, d, m.id, m.summary, record)
    {
      var record :| Requested(s.log, s.openedBy, d, m.id, m.summary, record);
      assert Requested(after.log, after.openedBy, d, m.id, m.summary, record);
    }
  }

  /** Entries that mint and run nothing leave the knowledge about pending records as it is. */
  lemma PendingLater(s: System, after: System, more: seq<Event>)
    requires PendingKnown(s) && after.log == s.log + more && s.used <= after.used
    requires forall e :: e in more ==> !e.Minted? && !e.Ran?
    requires forall k :: k in after.core.pending ==> k in s.core.pending && after.core.pending[k] == s.core.pending[k]
    ensures PendingKnown(after)
  {
    forall k | k in after.core.pending
      ensures Minted(after.core.pending[k]) in after.log && !HasRun(after.log, k)
    {
      assert !HasRun(s.log, k);
    }
  }

  lemma CallKeepsCapabilities(config: Config, s: System, id: string, message: Option<ClientMessage>, env: Env, out: Outcome)
    requires Inv(config, s) && Shape(config, s.core, id, message, env, out)
    ensures CapabilitiesKnown(AfterCall(s, id, out, env))
  {
    var after := AfterCall(s, id, out, env);
    forall k | k in after.core.sessions
      ensures CapabilitiesOf(after.log, s.openedBy, k, after.core.sessions[k])
    {
      CallKeepsCapabilitiesOf(config, s, id, message, env, out, k);
    }
  }

  lemma CallKeepsCapabilitiesOf(config: Config, s: System, id: string, message: Option<ClientMessage>, env: Env,
                                out: Outcome, k: string)
    requires CapabilitiesKnown(s) && Shape(config, s.core, id, message, env, out) && k in out.state.sessions
    ensures CapabilitiesOf(s.log + out.events, s.openedBy, k, out.state.sessions[k])
  {
    var before, now := s.core.sessions[k], out.state.sessions[k];
    assert CapabilitiesOf(s.log, s.openedBy, k, before);
    if SameCapabilities(before, now) {
      if !now.capabilitiesInitialized {
        UnreadyIsSilent(config, s.core, id, message, env, out, k);
      }
      CapabilitiesLater(s.log, out.events, s.openedBy, s.openedBy, k, now);
    } else {
      assert HelloAccepted(k, now.capabilities) in s.log + out.events;
    }
  }

  /** A session that ends a call without capabilities caused no event in it. */
  lemma UnreadyIsSilent(config: Config, core: State, id: string, message: Option<ClientMessage>, env: Env,
                        out: Outcome, k: string)
    requires Shape(config, core, id, message, env, out) && k in out.state.sessions
    requires !out.state.sessions[k].capabilitiesInitialized
    ensures Silent(out.events, k)
  {
    if out.events != [] {
      assert out.events == [out.events[0]] && Justified(config, core, id, message, env, out.events[0]);
    }
  }

  lemma CallKeepsPending(config: Config, s: System, id: string, message: Option<ClientMessage>, env: Env, out: Outcome)
    requires Inv(config, s) && env.freshId !in s.used && Shape(config, s.core, id, message, env, out)
    ensures PendingKnown(AfterCall(s, id, out, env))
  {
    var after := AfterCall(s, id, out, env);
    forall k | k in after.core.pending
      ensures Minted(after.core.pending[k]) in after.log && !HasRun(after.log, k)
    {
      if k in s.core.pending && after.core.pending[k] == s.core.pending[k] {
        assert !HasRun(s.log, k);
      } else {
        assert k == env.freshId && !HasRun(s.log, k);
      }
    }
    forall e | e in out.events
      ensures e.Minted? ==> e.record.id in after.used
      ensures e.Ran? && e.via.Some? ==> e.via.value.id in after.used
    {
      assert Justified(config, s.core, id, message, env, e);
      if e.Ran? && e.via.Some? {
        assert Minted(s.core.pending[e.via.value.id]) in s.log;
      }
    }
  }

  lemma CallKeepsChannels(config: Config, s: System, id: string, message: Option<ClientMessage>, env: Env, out: Outcome)
    requires Inv(config, s) && Shape(config, s.core, id, message, env, out)
    ensures var after := AfterCall(s, id, out, env); DownKnown(after) && DevicesKnown(after) && UpKnown(after)
  {
    var after := AfterCall(s, id, out, env);
    forall d, m | d in after.down && m in after.down[d] && m.ConfirmRequest?
      ensures exists record :: Requested(after.log, after.openedBy, d, m.id, m.summary, record)
    {
      if d in s.down && m in s.down[d] {
        var record :| Requested(s.log, s.openedBy, d, m.id, m.summary, record);
        assert Requested(after.log, after.openedBy, d, m.id, m.summary, record);
      } else {
        var record := out.events[0].record;
        assert Justified(config, s.core, id, message, env, out.events[0]);
        assert Requested(after.log, after.openedBy, d, m.id, m.summary, record);
      }
    }
    LongerLogKeepsDevices(s, after);
  }

  lemma LongerLogKeepsDevices(s: System, after: System)
    requires DevicesKnown(s) && UpKnown(s) && s.log <= after.log
    requires after.devices == s.devices && after.up == s.up
    requires forall id :: id in s.openedBy ==> id in after.openedBy && after.openedBy[id] == s.openedBy[id]
    ensures DevicesKnown(after) && UpKnown(after)
  {
    forall d | d in after.devices && after.devices[d].ui.confirmation != ""
      ensures exists record ::
                Requested(after.log, after.openedBy, d, after.devices[d].ui.confirmation, after.devices[d].ui.summary, record)
    {
      var ui := s.devices[d].ui;
      var record :| Requested(s.log, s.openedBy, d, ui.confirmation, ui.summary, record);
      assert Requested(after.log, after.openedBy, d, ui.confirmation, ui.summary, record);
    }
    forall d, m | d in after.up && m in after.up[d] && m.Confirmation?
      ensures exists summary :: Tapped(d, m.id, summary, m.accepted) in after.log
    {
      var summary :| Tapped(d, m.id, summary, m.accepted) in s.log;
      assert Tapped(d, m.id, summary, m.accepted) in after.log;
    }
  }

  lemma CallKeeps(config: Config, s: System, id: string, message: Option<ClientMessage>, env: Env, out: Outcome)
    requires Inv(config, s) && env.freshId !in s.used && FromDevice(s, id, message)
    requires Shape(config, s.core, id, message, env, out)
    requires CoreInv(out.state, env.clock.act)
    ensures Inv(config, AfterCall(s, id, out, env))
  {
    CallKeepsLog(config, s, id, message, env, out);
    CallKeepsCapabilities(config, s, id, message, env, out);
    CallKeepsPending(config, s, id, message, env, out);
    CallKeepsChannels(config, s, id, message, env, out);
    CallKeepsSessions(config, s, id, message, env, out);
  }

  lemma CallKeepsSessions(config: Config, s: System, id: string, message: Option<ClientMessage>, env: Env, out: Outcome)
    requires SessionsKnown(s) && Shape(config, s.core, id, message, env, out)
    ensures SessionsKnown(AfterCall(s, id, out, env))
  {
    forall e | e in out.events
      ensures e.HelloAccepted? ==> e.session in s.openedBy
      ensures e.Minted? ==> e.record.owner.Some? && e.record.owner.value in s.openedBy
      ensures e.Ran? ==> e.owner.Some? && e.owner.value in s.openedBy
      ensures !e.Opened?
    {
      assert Justified(config, s.core, id, message, env, e);
    }
  }

  lemma OpenKeepsAll(config: Config, s: System, a: Action)
    requires Inv(config, s) && a.OpenSession? && Enabled(config, s, a)
    ensures Inv(config, Next(config, s, a))
  {
    var after := Next(config, s, a);
    var id, device := a.env.freshId, a.device;
    OpenKeeps(s.core, a.v1, device, a.capabilities, a.env, s.now);
    var (core, refusal, events) := Open(s.core, a.v1, device, a.capabilities, a.env);
    OpenKeepsLog(config, s, a);
    LongerLogKeepsDevices(s, after);
    DownLater(s, after);
    PendingLater(s, after, events);
    OpenKeepsCapabilities(config, s, a);
  }

  lemma OpenKeepsLog(config: Config, s: System, a: Action)
    requires Inv(config, s) && a.OpenSession? && Enabled(config, s, a)
    ensures var after := Next(config, s, a); LogExplained(config, after.openedBy, after.devices.Keys, after.log)
    ensures SessionsKnown(Next(config, s, a))
  {
    hide Inv, Open;
    var after := Next(config, s, a);
    var e := Opened(a.env.freshId, a.device, a.v1, a.capabilities);
    OpenOutcome(s.core, a.v1, a.device, a.capabilities, a.env);
    assert LogExplained(config, s.openedBy, s.devices.Keys, s.log) && SessionsKnown(s) by {
      assert Inv(config, s);
      UnfoldInv(config, s);
    }
    if Open(s.core, a.v1, a.device, a.capabilities, a.env).1.None? {
      OpenedSessionIsNew(s, a.env.freshId);
      ExplainWithOneMoreSession(config, s.openedBy, s.devices.Keys, s.log, a.env.freshId, a.device);
      ExplainOneMore(config, after.openedBy, s.devices.Keys, s.log, e);
    } else {
      assert after.log == s.log;
    }
  }

  lemma UnfoldInv(config: Config, s: System)
    requires Inv(config, s)
    ensures LogExplained(config, s.openedBy, s.devices.Keys, s.log) && SessionsKnown(s)
  {
  }

  lemma OpenOutcome(core: State, v1: bool, device: string, capabilities: seq<string>, env: Env)
    ensures var (after, refusal, events) := Open(core, v1, device, capabilities, env);
            && (refusal.None? ==> events == [Opened(env.freshId, device, v1, capabilities)])
            && (refusal.Some? ==> events == [])
            && (forall k :: k in after.sessions && (k != env.freshId || refusal.Some?) ==>
                  k in core.sessions && after.sessions[k] == core.sessions[k])
            && (refusal.None? ==>
                  env.freshId in after.sessions &&
                  after.sessions[env.freshId] == Session(device, Idle, capabilities, v1, env.clock.act))
  {
  }

  lemma OpenedSessionIsNew(s: System, id: string)
    requires SessionsKnown(s) && id !in s.used
    ensures id !in s.openedBy && !HasOpened(s.log, id) && !HasActed(s.log, id)
  {
  }

  lemma OpenKeepsCapabilities(config: Config, s: System, a: Action)
    requires SessionsKnown(s) && CapabilitiesKnown(s) && a.OpenSession? && Enabled(config, s, a)
    ensures CapabilitiesKnown(Next(config, s, a))
  {
    hide CapabilitiesOf, Open;
    OpenOutcome(s.core, a.v1, a.device, a.capabilities, a.env);
    var after := Next(config, s, a);
    var (core, refusal, events) := Open(s.core, a.v1, a.device, a.capabilities, a.env);
    assert refusal.None? ==> events == [Opened(a.env.freshId, a.device, a.v1, a.capabilities)];
    assert Extends(after.openedBy, s.openedBy);
    forall k | k in core.sessions
      ensures CapabilitiesOf(s.log + events, after.openedBy, k, core.sessions[k])
    {
      if k in s.core.sessions {
        CapabilitiesLater(s.log, events, s.openedBy, after.openedBy, k, s.core.sessions[k]);
      } else {
        NewSessionCapabilities(s, a.env.freshId, a.device, a.v1, a.capabilities);
      }
    }
  }

  lemma NewSessionCapabilities(s: System, id: string, device: string, v1: bool, capabilities: seq<string>)
    requires SessionsKnown(s) && id !in s.used
    ensures forall session: Session :: session.capabilities == capabilities && session.capabilitiesInitialized == v1 ==>
              CapabilitiesOf(s.log + [Opened(id, device, v1, capabilities)], s.openedBy[id := device], id, session)
  {
    var log := s.log + [Opened(id, device, v1, capabilities)];
    assert Opened(id, device, v1, capabilities) in log;
    assert !v1 ==> OpenedSilently(log, s.openedBy[id := device], id);
  }

  lemma CloseKeepsAll(config: Config, s: System, id: string)
    requires Inv(config, s)
    ensures Inv(config, s.(core := Closed(s.core, id)))
  {
    var after := s.(core := Closed(s.core, id));
    ClosedKeeps(s.core, id, s.now);
    PendingLater(s, after, []);
  }

  /** A device changed: what it shows is still explained. */
  lemma DeviceKeepsShown(s: System, device: string, d: Device)
    requires DevicesKnown(s) && device in s.devices
    requires d.ui.confirmation == "" <==> d.ui.summary == ""
    requires d.ui.confirmation == "" ||
             (d.ui.confirmation, d.ui.summary) == (s.devices[device].ui.confirmation, s.devices[device].ui.summary) ||
             exists record :: Requested(s.log, s.openedBy, device, d.ui.confirmation, d.ui.summary, record)
    ensures DevicesKnown(s.(devices := s.devices[device := d]))
  {
  }

  lemma DeviceKeeps(config: Config, s: System, device: string, d: Device)
    requires Inv(config, s) && device in s.devices
    requires DevicesKnown(s.(devices := s.devices[device := d]))
    ensures Inv(config, s.(devices := s.devices[device := d]))
  {
    assert s.devices[device := d].Keys == s.devices.Keys;
  }

  lemma DeliverKeeps(config: Config, s: System, a: Action)
    requires Inv(config, s) && a.Deliver? && Enabled(config, s, a)
    ensures Inv(config, Next(config, s, a))
  {
    var d := s.devices[a.device];
    ShowsOnlyWhatArrived(d, a.line, a.signed);
    var d' := if d.secure then ReceiveSecure(d, a.line) else Receive(d, a.line, a.signed);
    DeviceKeepsShown(s, a.device, d');
    DeviceKeeps(config, s, a.device, d');
  }

  /** A line the device may send: a gesture, or an answer to what it shows. */
  predicate MaySend(d: Device, line: Option<ClientMessage>) {
    line.Some? && line.value.Confirmation? ==> line == ConfirmationFor(d, line.value.accepted)
  }

  lemma SentKeeps(config: Config, s: System, device: string, line: Option<ClientMessage>)
    requires Inv(config, s) && device in s.devices && MaySend(s.devices[device], line)
    ensures Inv(config, Sent(s, device, line))
  {
    if line.Some? {
      var after := Sent(s, device, line);
      SentKeepsUp(s, device, line);
      if line.value.Confirmation? {
        var ui := s.devices[device].ui;
        var e := Tapped(device, ui.confirmation, ui.summary, line.value.accepted);
        ExplainOneMore(config, s.openedBy, s.devices.Keys, s.log, e);
        TapKeepsCapabilities(s, after, e);
        PendingLater(s, after, [e]);
        DownLater(s, after);
        LongerLogKeepsDevices(s, after.(up := s.up));
      }
    }
  }

  lemma TapKeepsCapabilities(s: System, after: System, e: Event)
    requires CapabilitiesKnown(s) && e.Tapped? && after.log == s.log + [e]
    requires after.core == s.core && after.openedBy == s.openedBy
    ensures CapabilitiesKnown(after)
  {
    forall k | k in after.core.sessions
      ensures CapabilitiesOf(after.log, after.openedBy, k, after.core.sessions[k])
    {
      CapabilitiesLater(s.log, [e], s.openedBy, s.openedBy, k, s.core.sessions[k]);
    }
  }

  lemma SentKeepsUp(s: System, device: string, line: Option<ClientMessage>)
    requires UpKnown(s) && device in s.devices && MaySend(s.devices[device], line)
    ensures UpKnown(Sent(s, device, line))
  {
    var after := Sent(s, device, line);
    forall c, m | c in after.up && m in after.up[c] && m.Confirmation?
      ensures exists summary :: Tapped(c, m.id, summary, m.accepted) in after.log
    {
      if c in s.up && m in s.up[c] {
        var summary :| Tapped(c, m.id, summary, m.accepted) in s.log;
        assert Tapped(c, m.id, summary, m.accepted) in after.log;
      } else {
        assert Tapped(c, m.id, s.devices[device].ui.summary, m.accepted) in after.log;
      }
    }
  }

  lemma StepKeepsInv(config: Config, s: System, a: Action)
    requires Inv(config, s) && Enabled(config, s, a)
    ensures Inv(config, Next(config, s, a))
  {
    match a {
      case Message(id, message, env) =>
        FreshIsNotPending(config, s, env.freshId);
        HandleKeeps(config, s.core, id, message, env, s.now);
        HandleShape(config, s.core, id, message, env);
        CallKeeps(config, s, id, Some(message), env, HandleIn(config, s.core, id, message, env));
      case Transcript(id, env) =>
        FreshIsNotPending(config, s, env.freshId);
        HandleTranscriptKeeps(config, s.core, id, env, s.now);
        HandleTranscriptShape(config, s.core, id, env);
        CallKeeps(config, s, id, None, env, HandleTranscriptIn(config, s.core, id, env));
      case OpenSession(_, _, _, _) => OpenKeepsAll(config, s, a);
      case CloseSession(id) => CloseKeepsAll(config, s, id);
      case Deliver(_, _, _) => DeliverKeeps(config, s, a);
      case TouchScreen(device) => SentKeeps(config, s, device, Touch(s.devices[device]));
      case Answer(device, accepted) => SentKeeps(config, s, device, ConfirmationFor(s.devices[device], accepted));
      case LoseServer(device) =>
        DeviceKeepsShown(s, device, Reset(s.devices[device]));
        DeviceKeeps(config, s, device, Reset(s.devices[device]));
      case HandshakeDone(device) =>
        DeviceKeepsShown(s, device, s.devices[device].(authenticated := true));
        DeviceKeeps(config, s, device, s.devices[device].(authenticated := true));
    }
  }

  lemma FreshIsNotPending(config: Config, s: System, id: string)
    requires Inv(config, s) && id !in s.used
    ensures id !in s.core.pending
  {
    assert forall k :: k in s.core.pending ==> Minted(s.core.pending[k]) in s.log && s.core.pending[k].id == k;
  }

  // ----- Whole runs -----

  /** States joined by enabled steps, from a state in which nothing has happened. */
  ghost predicate Behaviour(config: Config, states: seq<System>, actions: seq<Action>) {
    && |states| == |actions| + 1
    && Init(states[0])
    && forall i :: 0 <= i < |actions| ==> Enabled(config, states[i], actions[i]) && states[i + 1] == Next(config, states[i], actions[i])
  }

  lemma {:induction false} BehaviourKeepsInv(config: Config, states: seq<System>, actions: seq<Action>, i: nat)
    requires Behaviour(config, states, actions) && i < |states|
    ensures Inv(config, states[i])
  {
    if i == 0 {
      InitInv(config, states[0]);
    } else {
      BehaviourKeepsInv(config, states, actions, i - 1);
      assert states[i - 1 + 1] == Next(config, states[i - 1], actions[i - 1]);
      StepKeepsInv(config, states[i - 1], actions[i - 1]);
    }
  }

  ghost predicate RanThrough(e: Event, id: string) {
    e.Ran? && e.via.Some? && e.via.value.id == id
  }

  ghost predicate HelloOf(e: Event, session: string) {
    e.HelloAccepted? && e.session == session
  }

  /**
   * Entry `k`, a handler run through a confirmation: that confirmation was minted earlier for the
   * same session and the same tool, by a session that had announced both a display and a touch
   * surface; the handler got the arguments that were frozen then; if the session belongs to a
   * device, that device was tapped in between, while it was showing this very id under exactly
   * the label of this tool; and no other handler call ever came from the same confirmation.
   */
  ghost predicate RunWasShown(s: System, k: nat)
    requires k < |s.log| && s.log[k].Ran? && s.log[k].via.Some?
  {
    var run := s.log[k];
    var record := run.via.value;
    && run.owner.Some? && run.owner == record.owner && run.tool == record.tool
    && run.owner.value in s.openedBy
    && (record.execution.Some? ==> run.arguments == record.execution.value)
    && (forall j :: 0 <= j < |s.log| && RanThrough(s.log[j], record.id) ==> j == k)
    && exists m :: 0 <= m < k && s.log[m] == Minted(record) &&
         CanAsk(s.log[..m], s.openedBy, run.owner.value) &&
         (s.openedBy[run.owner.value] in s.devices ==>
            exists t :: m < t < k &&
              s.log[t] == Tapped(s.openedBy[run.owner.value], record.id, DeviceLabel(run.tool), true))
  }

  /** The gate: every handler that ran through a confirmation was shown and tapped. */
  lemma ConfirmedRunsWereShown(config: Config, states: seq<System>, actions: seq<Action>, i: nat, k: nat)
    requires Behaviour(config, states, actions) && i < |states|
    requires k < |states[i].log| && states[i].log[k].Ran? && states[i].log[k].via.Some?
    ensures RunWasShown(states[i], k)
  {
    hide Inv, RunWasShown;
    BehaviourKeepsInv(config, states, actions, i);
    ConfirmedRunWasShown(config, states[i], k);
  }

  lemma ConfirmedRunWasShown(config: Config, s: System, k: nat)
    requires Inv(config, s) && k < |s.log| && s.log[k].Ran? && s.log[k].via.Some?
    ensures RunWasShown(s, k)
  {
    var run := s.log[k];
    var record := run.via.value;
    assert Explained(config, s.openedBy, s.devices.Keys, s.log[..k], run);
    var m :| 0 <= m < k && s.log[m] == Minted(record);
    assert Explained(config, s.openedBy, s.devices.Keys, s.log[..m], s.log[m]);
    var device := s.openedBy[run.owner.value];
    if device in s.devices {
      var t :| 0 <= t < k && s.log[t] == Tapped(device, record.id, DeviceLabel(run.tool), true);
      TapFollowsMint(config, s, t, m);
    }
    forall j | 0 <= j < |s.log| && RanThrough(s.log[j], record.id)
      ensures j == k
    {
      RanAtOnePlace(config, s, if j <= k then j else k, if j <= k then k else j);
    }
  }

  lemma TapFollowsMint(config: Config, s: System, t: nat, m: nat)
    requires LogExplained(config, s.openedBy, s.devices.Keys, s.log)
    requires t < |s.log| && s.log[t].Tapped? && m < |s.log| && s.log[m].Minted? && s.log[m].record.id == s.log[t].confirmation
    ensures m < t
  {
    var tap := s.log[t];
    assert Explained(config, s.openedBy, s.devices.Keys, s.log[..t], tap);
    var record :| Requested(s.log[..t], s.openedBy, tap.device, tap.confirmation, tap.summary, record);
    var n :| 0 <= n < t && s.log[n] == Minted(record);
    MintedAtOnePlace(config, s.openedBy, s.devices.Keys, s.log, if m <= n then m else n, if m <= n then n else m);
  }

  lemma RanAtOnePlace(config: Config, s: System, i: nat, j: nat)
    requires LogExplained(config, s.openedBy, s.devices.Keys, s.log)
    requires i <= j < |s.log| && s.log[i].Ran? && s.log[j].Ran? && s.log[i].via.Some? && s.log[j].via.Some?
    requires s.log[i].via.value.id == s.log[j].via.value.id
    ensures i == j
  {
    assert Explained(config, s.openedBy, s.devices.Keys, s.log[..j], s.log[j]);
    assert forall k :: 0 <= k < j ==> s.log[..j][k] == s.log[k] && s.log[k] in s.log[..j];
  }

  /** An unsafe handler never runs except through a confirmation. */
  lemma UnsafeRunsAreConfirmed(config: Config, states: seq<System>, actions: seq<Action>, i: nat, k: nat)
    requires Behaviour(config, states, actions) && i < |states|
    requires k < |states[i].log| && states[i].log[k].Ran?
    ensures states[i].log[k].tool in config.catalog
    ensures config.catalog[states[i].log[k].tool] == Unsafe ==> states[i].log[k].via.Some?
  {
    BehaviourKeepsInv(config, states, actions, i);
    assert Explained(config, states[i].openedBy, states[i].devices.Keys, states[i].log[..k], states[i].log[k]);
  }

  lemma OpenedOnce(config: Config, s: System, i: nat, j: nat)
    requires LogExplained(config, s.openedBy, s.devices.Keys, s.log)
    requires i <= j < |s.log| && s.log[i].Opened? && s.log[j].Opened? && s.log[i].session == s.log[j].session
    ensures i == j
  {
    assert Explained(config, s.openedBy, s.devices.Keys, s.log[..j], s.log[j]);
    assert forall k :: 0 <= k < j ==> s.log[..j][k] == s.log[k] && s.log[k] in s.log[..j];
  }

  /**
   * A v2 session creates no record and runs no handler before its device hello, and it sends
   * at most one.
   */
  lemma SecureSessionsActAfterHello(config: Config, states: seq<System>, actions: seq<Action>, i: nat, k: nat,
                                    first: nat, session: string)
    requires Behaviour(config, states, actions) && i < |states|
    requires first < |states[i].log| && k < |states[i].log|
    requires states[i].log[first].Opened? && states[i].log[first].session == session && !states[i].log[first].initialized
    requires HasActed([states[i].log[k]], session)
    ensures exists h :: 0 <= h < k && HelloOf(states[i].log[h], session)
    ensures forall a, b | 0 <= a < |states[i].log| && 0 <= b < |states[i].log| ::
              HelloOf(states[i].log[a], session) && HelloOf(states[i].log[b], session) ==> a == b
  {
    BehaviourKeepsInv(config, states, actions, i);
    var s := states[i];
    assert Explained(config, s.openedBy, s.devices.Keys, s.log[..k], s.log[k]);
    assert s.log[k] in [s.log[k]];
    var capabilities :| Announced(s.log[..k], session, s.openedBy[session], capabilities);
    forall j | 0 <= j < |s.log| && s.log[j].Opened? && s.log[j].session == session
      ensures j == first
    {
      OpenedOnce(config, s, if first <= j then first else j, if first <= j then j else first);
    }
    assert HelloAccepted(session, capabilities) in s.log[..k];
    forall a, b | 0 <= a < |s.log| && 0 <= b < |s.log| && HelloOf(s.log[a], session) && HelloOf(s.log[b], session)
      ensures a == b
    {
      AnnouncedOnce(config, s, if a <= b then a else b, if a <= b then b else a);
    }
  }

  lemma AnnouncedOnce(config: Config, s: System, i: nat, j: nat)
    requires LogExplained(config, s.openedBy, s.devices.Keys, s.log)
    requires i <= j < |s.log| && s.log[i].HelloAccepted? && s.log[j].HelloAccepted? && s.log[i].session == s.log[j].session
    ensures i == j
  {
    assert Explained(config, s.openedBy, s.devices.Keys, s.log[..j], s.log[j]);
    assert forall k :: 0 <= k < j ==> s.log[..j][k] == s.log[k] && s.log[k] in s.log[..j];
  }

  /** Over a whole run, once a session's capabilities are known they never change, nor does its device. */
  lemma {:induction false} CapabilitiesNeverChange(config: Config, states: seq<System>, actions: seq<Action>,
                                                   i: nat, j: nat, id: string)
    requires Behaviour(config, states, actions) && i <= j < |states|
    requires id in states[i].core.sessions && states[i].core.sessions[id].capabilitiesInitialized
    requires id in states[j].core.sessions
    ensures SameCapabilities(states[i].core.sessions[id], states[j].core.sessions[id])
  {
    hide Inv, Next, Enabled;
    if i < j {
      var before, a := states[j - 1], actions[j - 1];
      assert states[j - 1 + 1] == Next(config, before, a);
      BehaviourKeepsInv(config, states, actions, i);
      BehaviourKeepsInv(config, states, actions, j - 1);
      SessionIdIsUsed(config, states[i], id);
      OnlyMoreUsed(config, states, actions, i, j - 1);
      ClosedSessionsStayClosed(config, before, a, id);
      CapabilitiesNeverChange(config, states, actions, i, j - 1, id);
      StepFixesCapabilities(config, before, a, id);
    }
  }

  lemma SessionIdIsUsed(config: Config, s: System, id: string)
    requires Inv(config, s) && id in s.core.sessions
    ensures id in s.used
  {
  }

  lemma {:induction false} OnlyMoreUsed(config: Config, states: seq<System>, actions: seq<Action>, i: nat, j: nat)
    requires Behaviour(config, states, actions) && i <= j < |states|
    ensures states[i].used <= states[j].used
  {
    hide Open, HandleIn, HandleTranscriptIn, Enabled;
    if i < j {
      OnlyMoreUsed(config, states, actions, i, j - 1);
      assert states[j - 1 + 1] == Next(config, states[j - 1], actions[j - 1]);
    }
  }

  /** The id of a session that ended never names a session again. */
  lemma ClosedSessionsStayClosed(config: Config, s: System, a: Action, id: string)
    requires Inv(config, s) && Enabled(config, s, a) && id in s.used && id in Next(config, s, a).core.sessions
    ensures id in s.core.sessions
  {
    hide LogExplained, CapabilitiesKnown, DownKnown, DevicesKnown, UpKnown, HandleIn, HandleTranscriptIn, Open;
    match a {
      case Message(session, message, env) => HandleShape(config, s.core, session, message, env);
      case Transcript(session, env) => HandleTranscriptShape(config, s.core, session, env);
      case OpenSession(v1, device, capabilities, env) => OpenOutcome(s.core, v1, device, capabilities, env);
      case CloseSession(_) =>
      case _ =>
    }
  }

  lemma StepFixesCapabilities(config: Config, s: System, a: Action, id: string)
    requires Inv(config, s) && Enabled(config, s, a)
    requires id in s.core.sessions && s.core.sessions[id].capabilitiesInitialized
    requires id in Next(config, s, a).core.sessions
    ensures SameCapabilities(s.core.sessions[id], Next(config, s, a).core.sessions[id])
  {
    hide LogExplained, CapabilitiesKnown, DownKnown, DevicesKnown, UpKnown, HandleIn, HandleTranscriptIn, Open;
    match a {
      case Message(session, message, env) =>
        HandleShape(config, s.core, session, message, env);
        CallFixesCapabilities(config, s.core, session, Some(message), env, HandleIn(config, s.core, session, message, env), id);
      case Transcript(session, env) =>
        HandleTranscriptShape(config, s.core, session, env);
        CallFixesCapabilities(config, s.core, session, None, env, HandleTranscriptIn(config, s.core, session, env), id);
      case OpenSession(v1, device, capabilities, env) => OpenOutcome(s.core, v1, device, capabilities, env);
      case CloseSession(_) =>
      case Deliver(_, _, _) =>
      case Answer(_, _) =>
      case _ =>
    }
  }

  lemma CallFixesCapabilities(config: Config, core: State, session: string, message: Option<ClientMessage>, env: Env,
                              out: Outcome, id: string)
    requires Shape(config, core, session, message, env, out)
    requires id in core.sessions && core.sessions[id].capabilitiesInitialized && id in out.state.sessions
    ensures SameCapabilities(core.sessions[id], out.state.sessions[id])
  {
    assert |out.events| == 1 ==> Justified(config, core, session, message, env, out.events[0]);
  }

  function ActionOf(id: string, message: Option<ClientMessage>, env: Env): Action {
    if message.Some? then Message(id, message.value, env) else Transcript(id, env)
  }

  /** A ready session with nothing to answer, on a device that can ask. */
  predicate ReadyToAsk(session: Session) {
    session.capabilitiesInitialized && CanConfirm(session.capabilities) && session.state != Confirm
  }

  /** An unsafe tool whose callables accept the order and yield an acceptable request. */
  predicate Requestable(config: Config, id: string, order: Order, env: Env) {
    && order.tool in config.catalog && config.catalog[order.tool] == Unsafe
    && order.tool != "remember_fact" && order.tool != "recall_memory"
    && env.callbacks.validated.Valid? && (env.callbacks.prepared.NoPreparer? || env.callbacks.prepared.Prepared?)
    && env.callbacks.summary.Summary?
    && Acceptable(RequestFor(order.tool, env.callbacks.validated.value, Some(id), order.callId, order.digest, env.callbacks))
  }

  /** The record such an order is asked about with: its arguments are frozen now, and it expires after the TTL. */
  function AskedRecord(config: Config, id: string, order: Order, env: Env): Pending
    requires Requestable(config, id, order, env)
  {
    var summary := env.callbacks.summary.text;
    Pending(env.freshId, Some(id), order.tool, env.callbacks.validated.value,
            if |summary| > 240 then summary[..240] else summary, env.clock.act, env.clock.act + config.ttl, order.callId,
            order.digest, if env.callbacks.prepared.Prepared? then Some(env.callbacks.prepared.arguments) else None)
  }

  /**
   * In every reachable state a ready session that asks for an unsafe tool, by a tool call, a text or a transcript,
   * with an acceptable request, gets its confirmation: neither limit of the manager can refuse it.
   */
  lemma ReadySessionsAreAsked(config: Config, states: seq<System>, actions: seq<Action>, i: nat,
                              id: string, message: Option<ClientMessage>, env: Env)
    requires Behaviour(config, states, actions) && i < |states| && IsAsking(config, states[i], id, message, env)
    ensures IsAsked(config, id, OrderOf(config, message, env).value, env, CallIn(config, states[i].core, id, message, env))
  {
    hide IsAsking, IsAsked, Inv;
    BehaviourKeepsInv(config, states, actions, i);
    AskedInState(config, states[i], id, message, env);
  }

  /** A ready session asks for an unsafe tool with an acceptable request. */
  ghost predicate IsAsking(config: Config, s: System, id: string, message: Option<ClientMessage>, env: Env) {
    && Enabled(config, s, ActionOf(id, message, env))
    && id in s.core.sessions && ReadyToAsk(s.core.sessions[id])
    && (message.Some? ==> env.clock.prune - s.core.sessions[id].lastSeen < MAX_SESSION_IDLE_SECONDS)
    && OrderOf(config, message, env).Some? && Requestable(config, id, OrderOf(config, message, env).value, env)
  }

  /** It got its confirmation, and now waits for the answer. */
  predicate IsAsked(config: Config, id: string, order: Order, env: Env, out: Outcome)
    requires Requestable(config, id, order, env)
  {
    && out.events == [Minted(AskedRecord(config, id, order, env))]
    && env.freshId in out.state.pending && out.state.pending[env.freshId] == AskedRecord(config, id, order, env)
    && id in out.state.sessions && out.state.sessions[id].state == Confirm
    && out.replies == [ConfirmRequest(env.freshId, order.tool, DeviceLabel(order.tool), env.clock.act + config.ttl),
                       UiUpdate("confirm")]
  }

  lemma AskedInState(config: Config, s: System, id: string, message: Option<ClientMessage>, env: Env)
    requires Inv(config, s) && IsAsking(config, s, id, message, env)
    ensures IsAsked(config, id, OrderOf(config, message, env).value, env, CallIn(config, s.core, id, message, env))
  {
    hide RunToolIn, DeviceLabel, CanConfirm, Acceptable, IsAsked, Requestable;
    var core, now := s.core, s.now;
    var live := if message.Some? then PruneStale(core, env.clock.prune) else core;
    if message.Some? {
      PruneStaleKeeps(core, now, env.clock.prune);
    } else {
      TimePasses(core, now, env.clock.prune);
    }
    var touched := Touched(live, id, env.clock.touch);
    TouchedKeeps(live, id, env.clock.prune, env.clock.touch);
    TimePasses(touched, env.clock.touch, env.clock.act);
    OrderReachesTool(config, core, id, message, env);
    AskedWhenReady(config, touched, id, OrderOf(config, message, env).value, env);
  }

  lemma OrderReachesTool(config: Config, core: State, id: string, message: Option<ClientMessage>, env: Env)
    requires id in core.sessions && ReadyToAsk(core.sessions[id]) && OrderOf(config, message, env).Some?
    requires message.Some? ==> !Stale(core.sessions[id], env.clock.prune)
    ensures var order := OrderOf(config, message, env).value;
            var live := if message.Some? then PruneStale(core, env.clock.prune) else core;
            id in live.sessions &&
            CallIn(config, core, id, message, env) ==
              RunToolIn(config, Touched(live, id, env.clock.touch), id, order.tool, order.arguments, order.callId, order.digest, env)
  {
    hide RunToolIn, CanConfirm;
  }

  lemma AskedWhenReady(config: Config, core: State, id: string, order: Order, env: Env)
    requires CoreInv(core, env.clock.act) && id in core.sessions && ReadyToAsk(core.sessions[id])
    requires Requestable(config, id, order, env)
    ensures IsAsked(config, id, order, env, RunToolIn(config, core, id, order.tool, order.arguments, order.callId, order.digest, env))
  {
    hide DeviceLabel, CanConfirm, Acceptable, RunToolIn, CreateIn;
    var request := RequestFor(order.tool, env.callbacks.validated.value, Some(id), order.callId, order.digest, env.callbacks);
    NotAskingIsClear(core, id, env.clock.act);
    LimitsNeverFire(core, config.ttl, request, env.freshId, env.clock.act);
    CreatedIsAsked(config, core, id, order, env);
  }

  lemma CreatedIsAsked(config: Config, core: State, id: string, order: Order, env: Env)
    requires id in core.sessions && ReadyToAsk(core.sessions[id]) && Requestable(config, id, order, env)
    requires var request := RequestFor(order.tool, env.callbacks.validated.value, Some(id), order.callId, order.digest, env.callbacks);
             CreateIn(core.pending, config.ttl, request, env.freshId, env.clock.act).1.Success?
    ensures IsAsked(config, id, order, env, RunToolIn(config, core, id, order.tool, order.arguments, order.callId, order.digest, env))
  {
    hide DeviceLabel, CanConfirm, Acceptable;
  }

  /** The answer is yes, to a live record of the answering session, and its arguments are known. */
  predicate Answerable(core: State, id: string, confirmation: string, accepted: bool, env: Env) {
    && accepted && confirmation in core.pending
    && var record := core.pending[confirmation];
       && record.owner == Some(id) && env.clock.act < record.expiresAt
       && (record.execution.Some? || env.callbacks.validated.Valid?)
  }

  /** What the record of an answer is run with. */
  function AnswerArguments(record: Pending, env: Env): Arguments
    requires record.execution.Some? || env.callbacks.validated.Valid?
  {
    if record.execution.Some? then record.execution.value else env.callbacks.validated.value
  }

  /**
   * In every reachable state an answer runs a handler exactly when it is a yes to an unexpired record of its own
   * session; then it runs the record's tool with the record's arguments and uses the record up.
   */
  lemma AnswersRunExactly(config: Config, states: seq<System>, actions: seq<Action>, i: nat,
                          id: string, confirmation: string, accepted: bool, env: Env)
    requires Behaviour(config, states, actions) && i < |states|
    requires Enabled(config, states[i], Message(id, Confirmation(confirmation, accepted), env))
    ensures RunsExactly(states[i].core, id, confirmation, accepted, env,
                        HandleIn(config, states[i].core, id, Confirmation(confirmation, accepted), env))
  {
    hide HandleIn, RunsExactly, Inv;
    BehaviourKeepsInv(config, states, actions, i);
    AnsweredInState(config, states[i], id, confirmation, accepted, env);
  }

  predicate RunsExactly(core: State, id: string, confirmation: string, accepted: bool, env: Env, out: Outcome) {
    if Answerable(core, id, confirmation, accepted, env) then
      var record := core.pending[confirmation];
      out.events == [Ran(Some(id), record.tool, AnswerArguments(record, env), Some(record))] &&
      confirmation !in out.state.pending
    else out.events == []
  }

  lemma AnsweredInState(config: Config, s: System, id: string, confirmation: string, accepted: bool, env: Env)
    requires Inv(config, s) && Enabled(config, s, Message(id, Confirmation(confirmation, accepted), env))
    ensures RunsExactly(s.core, id, confirmation, accepted, env,
                        HandleIn(config, s.core, id, Confirmation(confirmation, accepted), env))
  {
    hide HandleIn, CoreInv;
    PendingToolsAreKnown(config, s);
    if Answerable(s.core, id, confirmation, accepted, env) {
      AnswerIsHeard(config, s.core, id, confirmation, env, s.now);
    } else {
      OtherwiseNothingRuns(config, s.core, id, confirmation, accepted, env, s.now);
    }
  }

  lemma PendingToolsAreKnown(config: Config, s: System)
    requires Inv(config, s)
    ensures forall k :: k in s.core.pending ==> s.core.pending[k].tool in config.catalog
  {
    forall k | k in s.core.pending
      ensures s.core.pending[k].tool in config.catalog
    {
      var m :| 0 <= m < |s.log| && s.log[m] == Minted(s.core.pending[k]);
      assert Explained(config, s.openedBy, s.devices.Keys, s.log[..m], s.log[m]);
    }
  }

  lemma AnswerIsHeard(config: Config, core: State, id: string, confirmation: string, env: Env, now: int)
    requires CoreInv(core, now) && Timely(config, env.clock, now) && Answerable(core, id, confirmation, true, env)
    requires core.pending[confirmation].tool in config.catalog
    ensures var out := HandleIn(config, core, id, Confirmation(confirmation, true), env);
            var record := core.pending[confirmation];
            && out.events == [Ran(Some(id), record.tool, AnswerArguments(record, env), Some(record))]
            && confirmation !in out.state.pending
  {
    assert Backed(core, core.pending[confirmation]);
    assert !Stale(core.sessions[id], env.clock.prune);
  }

  lemma OtherwiseNothingRuns(config: Config, core: State, id: string, confirmation: string, accepted: bool, env: Env, now: int)
    requires CoreInv(core, now) && !Answerable(core, id, confirmation, accepted, env)
    ensures HandleIn(config, core, id, Confirmation(confirmation, accepted), env).events == []
  {
  }

  // ----- From the request to the run -----

  /** The request was made; the device of the session is authenticated, shows nothing, and can show this id. */
  ghost predicate CanBeShown(s: System, id: string, confirmation: string) {
    && id in s.openedBy && s.openedBy[id] in s.devices && FitsScreen(confirmation, 128)
    && s.devices[s.openedBy[id]].authenticated && s.devices[s.openedBy[id]].ui.confirmation == ""
  }

  /** The answer comes in time, and its arguments are known. */
  ghost predicate AnsweredInTime(config: Config, s: System, env: Env, answer: Env) {
    && Timely(config, answer.clock, env.clock.act) && answer.freshId !in s.used && answer.freshId != env.freshId
    && answer.clock.act < env.clock.act + config.ttl
    && (env.callbacks.prepared.Prepared? || answer.callbacks.validated.Valid?)
  }

  /**
   * From every reachable state: an asked-for unsafe tool is shown under its label when its request is delivered, a touch
   * then answers yes, and that answer, handled before the confirmation expires, runs the tool with the frozen arguments.
   */
  lemma AskedIsShownAndRun(config: Config, states: seq<System>, actions: seq<Action>, i: nat,
                           id: string, message: Option<ClientMessage>, env: Env, signed: bool, answer: Env)
    requires Behaviour(config, states, actions) && i < |states| && IsAsking(config, states[i], id, message, env)
    requires CanBeShown(states[i], id, env.freshId) && AnsweredInTime(config, states[i], env, answer)
    ensures var order, device := OrderOf(config, message, env).value, states[i].openedBy[id];
            var record := AskedRecord(config, id, order, env);
            var asked := Next(config, states[i], ActionOf(id, message, env));
            var line := ConfirmRequest(env.freshId, order.tool, DeviceLabel(order.tool), env.clock.act + config.ttl);
            && Enabled(config, asked, Deliver(device, line, signed))
            && var shown := Next(config, asked, Deliver(device, line, signed));
               && device in shown.devices && shown.devices[device].ui == Ui("confirm", env.freshId, DeviceLabel(order.tool))
               && var tapped := Next(config, shown, TouchScreen(device));
                  && Enabled(config, tapped, Message(id, Confirmation(env.freshId, true), answer))
                  && HandleIn(config, tapped.core, id, Confirmation(env.freshId, true), answer).events ==
                       [Ran(Some(id), order.tool, AnswerArguments(record, answer), Some(record))]
  {
    hide Inv, Next, Enabled, HandleIn, CallIn, DeviceLabel, IsAsking, IsAsked, AskedRecord, OrderOf, Requestable, FitsScreen;
    BehaviourKeepsInv(config, states, actions, i);
    var s := states[i];
    AskingIsEnabled(config, s, id, message, env);
    var order, device := OrderOf(config, message, env).value, s.openedBy[id];
    var record := AskedRecord(config, id, order, env);
    var asked := Next(config, s, ActionOf(id, message, env));
    AskedStep(config, s, id, message, env);
    ShownStep(config, asked, device, record, signed);
    var line := ConfirmRequest(env.freshId, order.tool, DeviceLabel(order.tool), env.clock.act + config.ttl);
    var shown := Next(config, asked, Deliver(device, line, signed));
    RunStep(config, shown, id, record, answer);
  }

  /** After the request: the record is pending, its request is on the way, and the device is as it was. */
  lemma AskedStep(config: Config, s: System, id: string, message: Option<ClientMessage>, env: Env)
    requires Inv(config, s) && IsAsking(config, s, id, message, env) && CanBeShown(s, id, env.freshId)
    ensures Enabled(config, s, ActionOf(id, message, env))
    ensures var order := OrderOf(config, message, env).value;
            var record, after := AskedRecord(config, id, order, env), Next(config, s, ActionOf(id, message, env));
            && Inv(config, after) && after.openedBy == s.openedBy && after.devices == s.devices && after.now == env.clock.act
            && after.used == s.used + {env.freshId} && env.freshId in after.core.pending && after.core.pending[env.freshId] == record
            && ConfirmRequest(record.id, record.tool, DeviceLabel(record.tool), record.expiresAt) in At(after.down, s.openedBy[id])
  {
    hide Inv, HandleIn, HandleTranscriptIn, DeviceLabel, IsAsking, Requestable, AskedRecord, OrderOf, FitsScreen;
    AskedInState(config, s, id, message, env);
    AskingIsEnabled(config, s, id, message, env);
    StepKeepsInv(config, s, ActionOf(id, message, env));
    var order := OrderOf(config, message, env).value;
    ReplyIsSent(s, id, CallIn(config, s.core, id, message, env), env,
                ConfirmRequest(env.freshId, order.tool, DeviceLabel(order.tool), env.clock.act + config.ttl));
  }

  /** Its delivery puts it on the empty screen. */
  lemma ShownStep(config: Config, s: System, device: string, record: Pending, signed: bool)
    requires Inv(config, s) && device in s.devices && s.devices[device].authenticated && s.devices[device].ui.confirmation == ""
    requires FitsScreen(record.id, 128)
    requires ConfirmRequest(record.id, record.tool, DeviceLabel(record.tool), record.expiresAt) in At(s.down, device)
    ensures var step := Deliver(device, ConfirmRequest(record.id, record.tool, DeviceLabel(record.tool), record.expiresAt), signed);
            && record.id != "" && DeviceLabel(record.tool) != ""
            && Enabled(config, s, step) && Inv(config, Next(config, s, step))
            && Next(config, s, step) ==
                 s.(devices := s.devices[device := s.devices[device].(ui := Ui("confirm", record.id, DeviceLabel(record.tool)))])
  {
    hide Inv, DeviceLabel, FitsScreen, Receive, ReceiveSecure;
    LabelsFit(record.tool);
    NotEmpty(record.id, 128);
    NotEmpty(DeviceLabel(record.tool), 256);
    ShowsExactly(s.devices[device], record.id, record.tool, DeviceLabel(record.tool), record.expiresAt, signed);
    StepKeepsInv(config, s, Deliver(device, ConfirmRequest(record.id, record.tool, DeviceLabel(record.tool), record.expiresAt), signed));
  }

  lemma NotEmpty(text: string, maxBytes: nat)
    requires FitsScreen(text, maxBytes)
    ensures text != ""
  {
  }

  /** A touch answers it, and the answer in time runs it. */
  lemma RunStep(config: Config, s: System, id: string, record: Pending, answer: Env)
    requires Inv(config, s) && id in s.openedBy && s.openedBy[id] in s.devices && record.id != "" && record.owner == Some(id)
    requires record.id in s.core.pending && s.core.pending[record.id] == record
    requires var d := s.devices[s.openedBy[id]];
             d.authenticated && d.ui == Ui("confirm", record.id, DeviceLabel(record.tool)) && d.ui.summary != ""
    requires Timely(config, answer.clock, s.now) && answer.freshId !in s.used && answer.clock.act < record.expiresAt
    requires record.execution.Some? || answer.callbacks.validated.Valid?
    ensures Enabled(config, s, TouchScreen(s.openedBy[id]))
    ensures var tapped := Next(config, s, TouchScreen(s.openedBy[id]));
            && Enabled(config, tapped, Message(id, Confirmation(record.id, true), answer))
            && HandleIn(config, tapped.core, id, Confirmation(record.id, true), answer).events ==
                 [Ran(Some(id), record.tool, AnswerArguments(record, answer), Some(record))]
  {
    hide Inv, DeviceLabel, HandleIn, Timely, AnswerArguments;
    var device := s.openedBy[id];
    TouchAnswersTheScreen(s.devices[device], record.id, true);
    StepKeepsInv(config, s, TouchScreen(device));
    AnsweredInState(config, Next(config, s, TouchScreen(device)), id, record.id, true, answer);
  }

  lemma AskingIsEnabled(config: Config, s: System, id: string, message: Option<ClientMessage>, env: Env)
    requires IsAsking(config, s, id, message, env)
    ensures Enabled(config, s, ActionOf(id, message, env)) && OrderOf(config, message, env).Some?
    ensures Requestable(config, id, OrderOf(config, message, env).value, env)
    ensures var record := AskedRecord(config, id, OrderOf(config, message, env).value, env);
            && record.owner == Some(id) && record.id == env.freshId && record.expiresAt == env.clock.act + config.ttl
            && record.tool == OrderOf(config, message, env).value.tool
            && (record.execution.Some? <==> env.callbacks.prepared.Prepared?)
  {
  }

  lemma ReplyIsSent(s: System, id: string, out: Outcome, env: Env, line: ServerMessage)
    requires id in s.openedBy && line in out.replies
    ensures line in At(AfterCall(s, id, out, env).down, s.openedBy[id])
  {
  }
}

/**
 * Where v1 sessions come from: `PipaCore.authenticate` verifies a challenge and then opens a session of the Core
 * (backend/pipa_core/core.py). The verifier of `TrustedRuns` and the gate of `ConfirmationGate` run side by side.
 */
module SessionOrigins {
  import opened Prelude
  import opened Sessions
  import opened Tools
  import opened Core
  import opened CoreEvents
  import opened CoreInvariant
  import opened TrustedUnlock
  import Gate = ConfirmationGate
  import Trust = TrustedRuns
  import Held = TrustedOutcomes
  import Exact = CoreOutcomes

  datatype System = System(trust: Trust.System, gate: Gate.System)

  datatype Action =
    | TrustStep(trusted: Trust.Action)
    | GateStep(step: Gate.Action)
    | Authenticate(response: Response, capabilities: seq<string>, env: Env, now: int)

  ghost predicate Init(s: System) {
    Trust.Init(s.trust) && Gate.Init(s.gate)
  }

  /** A call that names no session only prunes. */
  function PruneOnly(env: Env): Gate.Action {
    Gate.Message("", Ping, env)
  }

  ghost predicate Enabled(config: Config, s: System, a: Action) {
    match a
    case TrustStep(step) => Trust.Enabled(s.trust, step) && !step.Authenticate?
    case GateStep(step) => Gate.Enabled(config, s.gate, step) && !(step.OpenSession? && step.v1)
    case Authenticate(_, _, env, _) =>
      && env.freshId !in s.trust.used && env.freshId != ""
      && Gate.Enabled(config, s.gate, PruneOnly(env))
  }

  function Verified(s: System, response: Response, now: int): Result<Authorization, UnlockError> {
    VerifyIn(s.trust.verifier, response, now).1
  }

  /** The Core prunes, the verifier decides, and on success the registry opens a session or refuses. */
  ghost function Next(config: Config, s: System, a: Action): System
    requires Enabled(config, s, a)
  {
    match a
    case TrustStep(step) => s.(trust := Trust.Next(s.trust, step))
    case GateStep(step) => s.(gate := Gate.Next(config, s.gate, step))
    case Authenticate(response, capabilities, env, now) =>
      var r := Verified(s, response, now);
      if r.Failure? then
        System(Trust.Next(s.trust, Trust.Authenticate(response, env.freshId, false, now)),
               Gate.Next(config, s.gate, PruneOnly(env)))
      else
        var admitted := Open(s.gate.core, true, r.value.device, capabilities, env).1.None?;
        System(Trust.Next(s.trust, Trust.Authenticate(response, env.freshId, admitted, now)),
               Gate.Next(config, s.gate, Gate.OpenSession(true, r.value.device, capabilities, env)))
  }

  ghost predicate Behaviour(config: Config, states: seq<System>, actions: seq<Action>) {
    && |states| == |actions| + 1 && Init(states[0])
    && forall i :: 0 <= i < |actions| ==> Enabled(config, states[i], actions[i]) && states[i + 1] == Next(config, states[i], actions[i])
  }

  /** An acceptance of a challenge of this device, by which this session was opened. */
  predicate Proves(e: Trust.Entry, session: string, device: string) {
    e.Accepted? && e.session == Some(session) && e.challenge.device == device && e.authorization.device == device
  }

  ghost predicate Proved(trust: Trust.System, e: Event) {
    e.Opened? && e.initialized ==> exists x :: x in trust.log && Proves(x, e.session, e.device)
  }

  ghost predicate Inv(config: Config, s: System) {
    && Trust.Inv(s.trust) && Held.TablesKnown(s.trust) && Gate.Inv(config, s.gate)
    && forall e :: e in s.gate.log ==> Proved(s.trust, e)
  }

  // ----- Every step keeps the invariant -----

  /** Only an authentication opens a v1 session. */
  lemma OthersOpenNoV1(config: Config, s: Gate.System, step: Gate.Action)
    requires Gate.Inv(config, s) && Gate.Enabled(config, s, step) && !(step.OpenSession? && step.v1)
    ensures forall e :: e in Gate.Next(config, s, step).log && e.Opened? && e.initialized ==> e in s.log
  {
    hide Gate.Inv, Gate.Enabled, HandleIn, HandleTranscriptIn, Open, CoreInv;
    if step.Message? || step.Transcript? {
      MessagesOpenNothing(config, s, step);
    } else if step.OpenSession? {
      Gate.OpenOutcome(s.core, step.v1, step.device, step.capabilities, step.env);
      var events := Open(s.core, step.v1, step.device, step.capabilities, step.env).2;
      assert Gate.Next(config, s, step).log == s.log + events;
      assert forall e :: e in events ==> !(e.Opened? && e.initialized);
    }
  }

  lemma MessagesOpenNothing(config: Config, s: Gate.System, step: Gate.Action)
    requires Gate.Inv(config, s) && (step.Message? || step.Transcript?)
    ensures step.Message? ==> forall e :: e in HandleIn(config, s.core, step.session, step.message, step.env).events ==> !e.Opened?
    ensures step.Transcript? ==> forall e :: e in HandleTranscriptIn(config, s.core, step.session, step.env).events ==> !e.Opened?
  {
    hide Gate.LogExplained, Gate.CapabilitiesKnown, Gate.DownKnown, Gate.DevicesKnown, Gate.UpKnown, Gate.SessionsKnown,
         Gate.PendingKnown, HandleIn, HandleTranscriptIn;
    if step.Message? {
      HandleShape(config, s.core, step.session, step.message, step.env);
      CallsOpenNothing(config, s.core, step.session, Some(step.message), step.env,
                       HandleIn(config, s.core, step.session, step.message, step.env));
    } else {
      HandleTranscriptShape(config, s.core, step.session, step.env);
      CallsOpenNothing(config, s.core, step.session, None, step.env, HandleTranscriptIn(config, s.core, step.session, step.env));
    }
  }

  lemma CallsOpenNothing(config: Config, core: State, id: string, message: Option<ClientMessage>, env: Env, out: Outcome)
    requires Shape(config, core, id, message, env, out)
    ensures forall e :: e in out.events ==> !e.Opened?
  {
    forall e | e in out.events
      ensures !e.Opened?
    {
      assert Justified(config, core, id, message, env, e);
    }
  }

  lemma TrustLogGrows(s: Trust.System, a: Trust.Action)
    ensures s.log <= Trust.Next(s, a).log
  {
    hide CreateIn, VerifyIn, IssueIn, ConsumeIn;
  }

  lemma StillProved(trust: Trust.System, after: Trust.System, e: Event)
    requires Proved(trust, e) && trust.log <= after.log
    ensures Proved(after, e)
  {
    if e.Opened? && e.initialized {
      var x :| x in trust.log && Proves(x, e.session, e.device);
      assert x in after.log;
    }
  }

  lemma StepKeepsInv(config: Config, s: System, a: Action)
    requires Inv(config, s) && Enabled(config, s, a)
    ensures Inv(config, Next(config, s, a))
  {
    hide Trust.Inv, Held.TablesKnown, Gate.Inv, Gate.Enabled, Gate.Next, Trust.Next, Trust.Enabled, Proved, VerifyIn, Open;
    match a
    case TrustStep(step) =>
      Trust.StepKeepsInv(s.trust, step);
      Held.StepKeepsTables(s.trust, step);
      TrustLogGrows(s.trust, step);
      forall e | e in s.gate.log
        ensures Proved(Trust.Next(s.trust, step), e)
      {
        StillProved(s.trust, Trust.Next(s.trust, step), e);
      }
    case GateStep(step) =>
      Gate.StepKeepsInv(config, s.gate, step);
      GateStepProved(config, s, s.trust, step);
    case Authenticate(response, capabilities, env, now) => AuthenticateKeeps(config, s, response, capabilities, env, now);
  }

  lemma GateStepProved(config: Config, s: System, trust: Trust.System, step: Gate.Action)
    requires Inv(config, s) && Gate.Enabled(config, s.gate, step) && !(step.OpenSession? && step.v1) && s.trust.log <= trust.log
    ensures forall e :: e in Gate.Next(config, s.gate, step).log ==> Proved(trust, e)
  {
    hide Gate.Inv, Gate.Enabled, Gate.Next, Trust.Inv, Held.TablesKnown;
    OthersOpenNoV1(config, s.gate, step);
    forall e | e in Gate.Next(config, s.gate, step).log
      ensures Proved(trust, e)
    {
      if e in s.gate.log {
        StillProved(s.trust, trust, e);
      }
    }
  }

  lemma AuthenticateKeeps(config: Config, s: System, response: Response, capabilities: seq<string>, env: Env, now: int)
    requires Inv(config, s) && Enabled(config, s, Authenticate(response, capabilities, env, now))
    ensures Inv(config, Next(config, s, Authenticate(response, capabilities, env, now)))
  {
    hide Trust.Inv, Held.TablesKnown, Gate.Inv, Gate.Next, Trust.Next, Proved, VerifyIn, Open, HandleIn;
    var r := Verified(s, response, now);
    var admitted := r.Success? && Open(s.gate.core, true, r.value.device, capabilities, env).1.None?;
    var proof := Trust.Authenticate(response, env.freshId, admitted, now);
    Trust.StepKeepsInv(s.trust, proof);
    Held.StepKeepsTables(s.trust, proof);
    TrustLogGrows(s.trust, proof);
    if r.Failure? {
      Gate.StepKeepsInv(config, s.gate, PruneOnly(env));
      GateStepProved(config, s, Trust.Next(s.trust, proof), PruneOnly(env));
    } else {
      var step := Gate.OpenSession(true, r.value.device, capabilities, env);
      Gate.StepKeepsInv(config, s.gate, step);
      OpenedIsProved(config, s, response, capabilities, env, now);
    }
  }

  lemma OpenedIsProved(config: Config, s: System, response: Response, capabilities: seq<string>, env: Env, now: int)
    requires Inv(config, s) && Enabled(config, s, Authenticate(response, capabilities, env, now)) && Verified(s, response, now).Success?
    ensures var after := Next(config, s, Authenticate(response, capabilities, env, now));
            forall e :: e in after.gate.log ==> Proved(after.trust, e)
  {
    hide Gate.Inv, Trust.Inv, Held.TablesKnown, Open, Unexpired, WithMark, Marked;
    var after := Next(config, s, Authenticate(response, capabilities, env, now));
    var device := Verified(s, response, now).value.device;
    Gate.OpenOutcome(s.gate.core, true, device, capabilities, env);
    assert s.trust.log <= after.trust.log;
    forall e | e in after.gate.log
      ensures Proved(after.trust, e)
    {
      if e in s.gate.log {
        StillProved(s.trust, after.trust, e);
      } else {
        assert Proves(after.trust.log[|s.trust.log|], e.session, e.device);
      }
    }
  }

  lemma {:induction false} BehaviourKeepsInv(config: Config, states: seq<System>, actions: seq<Action>, i: nat)
    requires Behaviour(config, states, actions) && i < |states|
    ensures Inv(config, states[i])
  {
    hide Inv, Enabled, Next;
    if i == 0 {
      InitInv(config, states[0]);
    } else {
      BehaviourKeepsInv(config, states, actions, i - 1);
      assert states[i - 1 + 1] == Next(config, states[i - 1], actions[i - 1]);
      StepKeepsInv(config, states[i - 1], actions[i - 1]);
    }
  }

  lemma InitInv(config: Config, s: System)
    requires Init(s)
    ensures Inv(config, s)
  {
    Gate.InitInv(config, s.gate);
    Trust.InitInv(s.trust);
    Held.NothingHeld(s.trust);
  }

  // ----- Over every run -----

  /** The acceptance behind a v1 session, with the challenge and the key it was signed with. */
  ghost predicate OpenedByProof(trust: Trust.System, j: nat, session: string, device: string) {
    && j < |trust.log| && Proves(trust.log[j], session, device)
    && Trust.Challenged(trust.log[j].challenge) in trust.log[..j]
    && Trust.KeyOf(trust.log[..j], device) == Some(trust.log[j].key)
  }

  /**
   * Every v1 session the Core ever opened was opened on an accepted challenge of its own device, verified with the key
   * registered for that device at that moment.
   */
  lemma V1SessionsWereProved(config: Config, states: seq<System>, actions: seq<Action>, i: nat, session: string, device: string,
                             capabilities: seq<string>)
    requires Behaviour(config, states, actions) && i < |states|
    requires Opened(session, device, true, capabilities) in states[i].gate.log
    ensures exists j :: OpenedByProof(states[i].trust, j, session, device)
  {
    hide Gate.Inv, Held.TablesKnown, Behaviour, Trust.KeyOf;
    BehaviourKeepsInv(config, states, actions, i);
    var trust := states[i].trust;
    assert Proved(trust, Opened(session, device, true, capabilities));
    var x :| x in trust.log && Proves(x, session, device);
    var j :| 0 <= j < |trust.log| && trust.log[j] == x;
    assert Trust.Explained(trust.verifier.skew, trust.log[..j], trust.log[j]);
    assert OpenedByProof(trust, j, session, device);
  }

  /** Different v1 sessions were opened on different challenges, and one session on one. */
  lemma V1SessionsHaveTheirOwnChallenge(config: Config, states: seq<System>, actions: seq<Action>, i: nat,
                                        j: nat, session: string, device: string, j': nat, session': string, device': string)
    requires Behaviour(config, states, actions) && i < |states|
    requires OpenedByProof(states[i].trust, j, session, device) && OpenedByProof(states[i].trust, j', session', device')
    ensures session == session' <==> states[i].trust.log[j].challenge.id == states[i].trust.log[j'].challenge.id
    ensures session == session' ==> j == j' && device == device'
  {
    hide Gate.Inv, Trust.Inv, Held.TablesKnown, Behaviour, Trust.KeyOf;
    BehaviourKeepsInv(config, states, actions, i);
    var log := states[i].trust.log;
    if session == session' || log[j].challenge.id == log[j'].challenge.id {
      Trust.OneAcceptanceIn(states[i].trust, j, j');
    }
  }

  /**
   * Authenticating opens a session exactly when the response answers a challenge that still awaits one and the registry
   * has room for the challenge's device; it is then an initialized session of that device.
   */
  lemma AuthenticationOpensExactly(config: Config, states: seq<System>, actions: seq<Action>, i: nat,
                                   response: Response, capabilities: seq<string>, env: Env, now: int)
    requires Behaviour(config, states, actions) && i < |states|
    requires Enabled(config, states[i], Authenticate(response, capabilities, env, now))
    ensures var s := states[i];
            var after, sessions := Next(config, s, Authenticate(response, capabilities, env, now)), s.gate.core.sessions;
            && (after.gate.log == s.gate.log <==> !exists c :: Admits(s, response, env, now, c))
            && forall c :: Admits(s, response, env, now, c) ==>
                 && after.gate.log == s.gate.log + [Opened(env.freshId, c.device, true, capabilities)]
                 && after.gate.core.sessions.Keys == Exact.Live(sessions, env.clock.act) + {env.freshId}
                 && after.gate.core.sessions[env.freshId] == Session(c.device, Idle, capabilities, true, env.clock.act)
  {
    hide Behaviour, Gate.Inv, Held.TablesKnown, Trust.Inv, Held.Answers, Open, VerifyIn, HandleIn, Exact.Live, Exact.LiveOf;
    BehaviourKeepsInv(config, states, actions, i);
    var s, r := states[i], Verified(states[i], response, now);
    Held.Accepts(s.trust, response, now);
    if r.Success? {
      var device := r.value.device;
      Exact.OpensExactly(s.gate.core, true, device, capabilities, env);
      var (core, refusal, events) := Open(s.gate.core, true, device, capabilities, env);
      var after := Next(config, s, Authenticate(response, capabilities, env, now));
      assert after.gate.log == s.gate.log + events && after.gate.core == core;
      forall c | Held.Answers(s.trust.log, s.trust.verifier.skew, response, now, c)
        ensures c.device == device && (Admits(s, response, env, now, c) <==> refusal.None?)
      {
      }
    } else {
      PingsOpenNothing(config, s.gate, env);
    }
  }

  /** The response answers the challenge, and the registry has room for its device. */
  ghost predicate Admits(s: System, response: Response, env: Env, now: int, c: Challenge) {
    var sessions := s.gate.core.sessions;
    && Held.Answers(s.trust.log, s.trust.verifier.skew, response, now, c)
    && |Exact.Live(sessions, env.clock.act)| < 32 && |Exact.LiveOf(sessions, c.device, env.clock.act)| < 2
  }

  lemma PingsOpenNothing(config: Config, s: Gate.System, env: Env)
    requires Gate.Inv(config, s)
    ensures Gate.Enabled(config, s, PruneOnly(env)) ==> Gate.Next(config, s, PruneOnly(env)).log == s.log
  {
  }
}

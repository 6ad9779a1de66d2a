/**
 * Sessions and their UI state (backend/pipa_core/state.py).
 *
 * `Session` is the value a `DeviceSession` object holds at one moment; the registry's
 * methods are proved against functions on maps of such values.
 */
module Sessions {
  import opened Prelude

  const MAX_SESSIONS := 32
  const MAX_SESSIONS_PER_DEVICE := 2
  const MAX_SESSION_IDLE_SECONDS := 900

  datatype UiState = Idle | Listening | Thinking | Confirm | Speaking | Focus | Dashboard

  function UiName(state: UiState): string {
    match state
    case Idle => "idle"
    case Listening => "listening"
    case Thinking => "thinking"
    case Confirm => "confirm"
    case Speaking => "speaking"
    case Focus => "focus"
    case Dashboard => "dashboard"
  }

  datatype Session = Session(
    device: string,
    state: UiState,
    capabilities: seq<string>,
    capabilitiesInitialized: bool,
    lastSeen: int)

  type SessionMap = map<string, Session>

  datatype SessionError = TooManySessions | TooManySessionsForDevice

  predicate Stale(session: Session, now: int) {
    now - session.lastSeen >= MAX_SESSION_IDLE_SECONDS
  }

  function StaleIds(sessions: SessionMap, now: int): set<string> {
    set id | id in sessions && Stale(sessions[id], now)
  }

  function IdsForDevice(sessions: SessionMap, device: string): set<string> {
    set id | id in sessions && sessions[id].device == device
  }

  /** Which limit, if any, refuses one more session of this device. */
  function Refusal(sessions: SessionMap, device: string): Option<SessionError> {
    if |sessions| >= MAX_SESSIONS then Some(TooManySessions)
    else if |IdsForDevice(sessions, device)| >= MAX_SESSIONS_PER_DEVICE then Some(TooManySessionsForDevice)
    else None
  }

  /** `SessionRegistry.create`: prunes silently, then applies both limits. */
  function CreateSessionIn(sessions: SessionMap, device: string, capabilities: seq<string>,
                           initialized: bool, id: string, now: int)
    : (SessionMap, Option<SessionError>)
  {
    var live := sessions - StaleIds(sessions, now);
    match Refusal(live, device)
    case Some(error) => (live, Some(error))
    case None => (live[id := Session(device, Idle, capabilities, initialized, now)], None)
  }

  class DeviceSession {
    const sessionId: string
    const deviceId: string
    var state: UiState
    var capabilities: seq<string>
    var capabilitiesInitialized: bool
    var lastSeenAt: int

    constructor (sessionId: string, deviceId: string, capabilities: seq<string>, initialized: bool, now: int)
      ensures this.sessionId == sessionId
      ensures View() == Session(deviceId, Idle, capabilities, initialized, now)
    {
      this.sessionId := sessionId;
      this.deviceId := deviceId;
      this.state := Idle;
      this.capabilities := capabilities;
      this.capabilitiesInitialized := initialized;
      this.lastSeenAt := now;
    }

    function View(): Session
      reads this
    {
      Session(deviceId, state, capabilities, capabilitiesInitialized, lastSeenAt)
    }

    method Touch(now: int)
      modifies this`lastSeenAt
      ensures View() == old(View()).(lastSeen := now)
    {
      lastSeenAt := now;
    }

    method SetState(state: UiState)
      modifies this`state
      ensures View() == old(View()).(state := state)
    {
      this.state := state;
    }

    method Initialize(capabilities: seq<string>)
      modifies this`capabilities, this`capabilitiesInitialized
      ensures View() == old(View()).(capabilities := capabilities, capabilitiesInitialized := true)
    {
      this.capabilities := capabilities;
      this.capabilitiesInitialized := true;
    }
  }

  class SessionRegistry {
    var sessions: map<string, DeviceSession>

    /** Every session is filed under its own id, so no object is filed twice. */
    ghost predicate Valid()
      reads this
    {
      forall id :: id in sessions ==> sessions[id].sessionId == id
    }

    ghost function View(): (view: SessionMap)
      reads this, sessions.Values
      ensures view.Keys == sessions.Keys
    {
      map id | id in sessions :: sessions[id].View()
    }

    constructor ()
      ensures Valid() && View() == map[]
    {
      sessions := map[];
    }

    method Create(device: string, capabilities: seq<string>, initialized: bool, id: string, now: int)
      returns (r: Result<DeviceSession, SessionError>)
      requires Valid()
      modifies this
      ensures Valid()
      ensures (View(), Error(r)) == CreateSessionIn(old(View()), device, capabilities, initialized, id, now)
      ensures r.Success? ==> id in sessions && sessions[id] == r.value && fresh(r.value)
      ensures forall s :: s in sessions.Values ==> s in old(sessions.Values) || fresh(s)
    {
      hide StaleIds, Refusal;
      var session := new DeviceSession(id, device, capabilities, initialized, now);
      assert View() == old(View());
      var _ := Prune(now);
      var refusal := CheckLimits(device);
      if refusal.Some? {
        return Failure(refusal.value);
      }
      File(session);
      r := Success(session);
    }

    static function Error<T>(r: Result<T, SessionError>): Option<SessionError> {
      if r.Success? then None else Some(r.error)
    }

    method CheckLimits(device: string) returns (refusal: Option<SessionError>)
      requires Valid()
      ensures refusal == Refusal(View(), device)
    {
      assert View().Keys == sessions.Keys;
      if |sessions| >= MAX_SESSIONS {
        return Some(TooManySessions);
      }
      var forDevice := set id | id in sessions && sessions[id].deviceId == device;
      assert forDevice == IdsForDevice(View(), device);
      refusal := if |forDevice| >= MAX_SESSIONS_PER_DEVICE then Some(TooManySessionsForDevice) else None;
    }

    /** A session object answers for one id only, so changing it changes one entry of the view. */
    twostate lemma OneChanged(id: string)
      requires old(Valid()) && sessions == old(sessions) && id in sessions
      requires forall k :: k in sessions && k != id ==> unchanged(sessions[k])
      ensures Valid() && View() == old(View())[id := sessions[id].View()]
    {
      assert forall k :: k in sessions && k != id ==> View()[k] == old(View())[k];
    }

    /** The insertion at the end of `create`. */
    method File(session: DeviceSession)
      requires Valid()
      modifies this
      ensures Valid()
      ensures sessions == old(sessions)[session.sessionId := session]
      ensures View() == old(View())[session.sessionId := session.View()]
    {
      sessions := sessions[session.sessionId := session];
      forall id | id in sessions && id != session.sessionId
        ensures View()[id] == old(View())[id]
      {
        assert sessions[id] == old(sessions)[id];
      }
    }

    /** Removes idle sessions and reports which ones, so the Core can cancel what they own. */
    method Prune(now: int) returns (expired: set<string>)
      requires Valid()
      modifies this
      ensures Valid()
      ensures expired == StaleIds(old(View()), now)
      ensures sessions == old(sessions) - expired
      ensures View() == old(View()) - expired
    {
      expired := set id | id in sessions && now - sessions[id].lastSeenAt >= MAX_SESSION_IDLE_SECONDS;
      var todo := expired;
      while todo != {}
        invariant todo <= expired
        invariant sessions == old(sessions) - (expired - todo)
        decreases todo
      {
        var id :| id in todo;
        sessions := sessions - {id};
        todo := todo - {id};
      }
    }

    method Remove(id: string)
      requires Valid()
      modifies this
      ensures Valid()
      ensures sessions == old(sessions) - {id}
      ensures View() == old(View()) - {id}
    {
      sessions := sessions - {id};
    }
  }
}

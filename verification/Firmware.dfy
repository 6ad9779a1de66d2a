/**
 * The device side of the confirmation protocol: `PipaProtocol` (v1, plain lines,
 * firmware/src/pipa_protocol.cpp), `PipaSecureProtocol` (v2, encrypted frames,
 * firmware/src/pipa_secure_protocol.cpp) and the touch handler of firmware/src/main.cpp.
 *
 * A message is what the JSON parser made of one line. Millisecond timers are left out: a
 * server time-out may happen at any moment.
 */
module Firmware {
  import opened Prelude
  import opened Core
  import opened Utf8

  datatype Ui = Ui(state: string, confirmation: string, summary: string)

  datatype Device = Device(secure: bool, authenticated: bool, awaitingReady: bool, ui: Ui)

  const CLEARED := Ui("idle", "", "")

  const UI_STATES := {"idle", "listening", "thinking", "confirm", "speaking", "focus", "dashboard"}

  predicate EndsSession(code: string) {
    code == "authentication_failed" || code == "authentication_required" || code == "unknown_session"
  }

  /** `updateUi`: an unknown state reads as idle, and only `confirm` keeps a confirmation. */
  function UpdatedUi(ui: Ui, state: string): Ui {
    var shown := if state in UI_STATES then state else "idle";
    if shown == "confirm" then ui.(state := shown) else Ui(shown, "", "")
  }

  /** A confirmation is shown only when none is visible and both texts are safe to display. */
  function ShownUi(ui: Ui, id: string, summary: string): Ui {
    if ui.confirmation != "" || !DisplaySafe(id, 128) || !DisplaySafe(summary, 256) then ui
    else Ui("confirm", id, summary)
  }

  function Reset(d: Device): Device {
    d.(authenticated := false, awaitingReady := false, ui := CLEARED)
  }

  /** v1 `handleMessage`; `signed` tells whether the identity key could sign. */
  function Receive(d: Device, message: ServerMessage, signed: bool): Device {
    match message
    case ChallengeReply(wellFormed) =>
      if d.authenticated || d.awaitingReady || !wellFormed || !signed then d else d.(awaitingReady := true)
    case ReadyReply(session, ui) =>
      if !d.awaitingReady || session == "" || |Encode(session)| > 128 then d
      else d.(authenticated := true, awaitingReady := false, ui := if ui.Some? then UpdatedUi(d.ui, ui.value) else d.ui)
    case UiUpdate(state) => if d.authenticated then d.(ui := UpdatedUi(d.ui, state)) else d
    case ConfirmRequest(id, _, summary, _) => if d.authenticated then d.(ui := ShownUi(d.ui, id, summary)) else d
    case ToolResult(_, _) => if d.authenticated then d.(ui := d.ui.(confirmation := "", summary := "")) else d
    case ErrorReply(code) => if EndsSession(code) then Reset(d) else d.(ui := CLEARED)
    case _ => d
  }

  /** v2 `handleMessage`, which runs only on the plaintext of an authenticated frame. */
  function ReceiveSecure(d: Device, message: ServerMessage): Device {
    if !d.authenticated then d
    else
      match message
      case ReadyReply(_, ui) => if ui.Some? then d.(ui := UpdatedUi(d.ui, ui.value)) else d
      case UiUpdate(state) => d.(ui := UpdatedUi(d.ui, state))
      case ConfirmRequest(id, _, summary, _) => d.(ui := ShownUi(d.ui, id, summary))
      case ToolResult(_, _) => d.(ui := d.ui.(confirmation := "", summary := ""))
      case ErrorReply(code) => if EndsSession(code) then Reset(d) else d.(ui := CLEARED)
      case _ => d
  }

  /** `sendConfirmation`: nothing leaves the device unless an id and a summary are both held. */
  function ConfirmationFor(d: Device, accepted: bool): Option<ClientMessage> {
    if !d.authenticated || d.ui.confirmation == "" || d.ui.summary == "" then None
    else Some(Confirmation(d.ui.confirmation, accepted))
  }

  /** One accepted touch: it confirms on the confirmation screen and is a gesture elsewhere. */
  function Touch(d: Device): Option<ClientMessage> {
    if !d.authenticated then None
    else if d.ui.state == "confirm" then ConfirmationFor(d, true)
    else Some(Gesture("tap"))
  }

  /** What a device shows came whole from one request it received while showing nothing. */
  lemma ShowsOnlyWhatArrived(d: Device, message: ServerMessage, signed: bool)
    requires d.ui.confirmation == "" <==> d.ui.summary == ""
    ensures var after := if d.secure then ReceiveSecure(d, message) else Receive(d, message, signed);
            && (after.ui.confirmation == "" <==> after.ui.summary == "")
            && (after.ui.confirmation != "" ==>
                  (after.ui.confirmation, after.ui.summary) == (d.ui.confirmation, d.ui.summary) ||
                  (message.ConfirmRequest? && d.ui.confirmation == "" &&
                   (after.ui.confirmation, after.ui.summary) == (message.id, message.summary)))
  {
  }

  /** What the device makes of a message, in either protocol. */
  function After(d: Device, message: ServerMessage, signed: bool): Device {
    if d.secure then ReceiveSecure(d, message) else Receive(d, message, signed)
  }

  /** Text a screen takes: there is some, it fits, and no character of it can disguise it. */
  predicate FitsScreen(text: string, maxBytes: nat) {
    && text != "" && |Encode(text)| <= maxBytes
    && forall c :: c in text ==>
         var u := c as int;
         !(u < 0x20 || 0x7F <= u <= 0x9F || 0x200B <= u <= 0x200F || 0x202A <= u <= 0x202E || 0x2060 <= u <= 0x2069 || u == 0xFEFF)
  }

  /**
   * A device shows a confirmation it receives, whole, exactly when it is authenticated, holds none, and both texts fit the
   * screen; otherwise nothing about it changes.
   */
  lemma ShowsExactly(d: Device, id: string, tool: string, summary: string, expiresAt: int, signed: bool)
    ensures var after := After(d, ConfirmRequest(id, tool, summary, expiresAt), signed);
            if d.authenticated && d.ui.confirmation == "" && FitsScreen(id, 128) && FitsScreen(summary, 256)
            then after == d.(ui := Ui("confirm", id, summary))
            else after == d
  {
  }

  predicate KnownState(state: string) {
    state == "idle" || state == "listening" || state == "thinking" || state == "confirm" || state == "speaking" ||
    state == "focus" || state == "dashboard"
  }

  /** Errors that end the session. */
  predicate Fatal(code: string) {
    code in ["authentication_failed", "authentication_required", "unknown_session"]
  }

  /** What every other message of an authenticated device does to its screen and its session. */
  lemma ScreensExactly(d: Device, message: ServerMessage, signed: bool)
    requires d.authenticated && !d.awaitingReady
    ensures var after := After(d, message, signed);
            && (message.UiUpdate? ==>
                  && after.authenticated && after.ui.state == (if KnownState(message.state) then message.state else "idle")
                  && (after.ui.state == "confirm" ==> after.ui.confirmation == d.ui.confirmation && after.ui.summary == d.ui.summary)
                  && (after.ui.state != "confirm" ==> after.ui.confirmation == "" && after.ui.summary == ""))
            && (message.ToolResult? ==> after == d.(ui := Ui(d.ui.state, "", "")))
            && (message.ErrorReply? ==> after == Device(d.secure, !Fatal(message.code), false, Ui("idle", "", "")))
            && (message.Pong? || message.StatusAck? || message.GestureAck? || message.TtsAborted? || message.HelloAck? ==> after == d)
  {
  }

  /** A v1 device authenticates exactly when, after its signed answer to a challenge, a session id arrives. */
  lemma AuthenticatesExactly(d: Device, message: ServerMessage, signed: bool)
    requires !d.secure && !d.authenticated
    ensures var after := Receive(d, message, signed);
            && (after.authenticated <==>
                  d.awaitingReady && message.ReadyReply? && message.session != "" && |Encode(message.session)| <= 128)
            && (after.awaitingReady && !d.awaitingReady <==> message.ChallengeReply? && message.wellFormed && signed && !d.awaitingReady)
  {
  }

  /** Printable Latin text of at most 80 characters. */
  predicate Latin(s: string) {
    0 < |s| <= 80 && forall i :: 0 <= i < |s| ==> ' ' <= s[i] <= '~' || 0xA0 <= s[i] as int < 0x800
  }

  /** Every label the Core sends fits the screen. */
  lemma LabelsFit(tool: string)
    ensures FitsScreen(DeviceLabel(tool), 256)
  {
    hide DeviceLabel;
    LabelsAreLatin(tool);
    var text := DeviceLabel(tool);
    EncodeLength(text);
  }

  lemma LabelsAreLatin(tool: string)
    ensures Latin(DeviceLabel(tool))
  {
    hide Latin;
    Labels1();
    Labels2();
    Labels3();
    Labels4();
    Labels5();
    Labels6();
  }

  lemma Labels1()
    ensures Latin("Abrir una aplicación configurada.")
    ensures Latin("Abrir Codex.")
    ensures Latin("Buscar en Internet.")
    ensures Latin("Buscar en Apple Music.")
  {
  }

  lemma Labels2()
    ensures Latin("Abrir Apple Music.")
    ensures Latin("Abrir League of Legends.")
    ensures Latin("Abrir Discord.")
    ensures Latin("Abrir un canal de Discord.")
  {
  }

  lemma Labels3()
    ensures Latin("Abrir un contacto de Discord.")
    ensures Latin("Abrir un chat de WhatsApp.")
    ensures Latin("Abrir WhatsApp Web.")
    ensures Latin("Buscar una partida en League.")
  {
  }

  lemma Labels4()
    ensures Latin("Cancelar la búsqueda de League.")
    ensures Latin("Bloquear el ordenador.")
    ensures Latin("Abrir una URL validada.")
    ensures Latin("Confirmar acción externa.")
  {
  }

  lemma Labels5()
    ensures Latin("Preparar una llamada de Discord; " + "el inicio será manual.")
  {
    assert Latin("Preparar una llamada de Discord; ");
    assert Latin("el inicio será manual.");
  }

  lemma Labels6()
    ensures Latin("Preparar o enviar un mensaje de " + "WhatsApp según la configuración local.")
  {
    assert Latin("Preparar o enviar un mensaje de ");
    assert Latin("WhatsApp según la configuración local.");
  }

  lemma {:induction false} EncodeLength(text: string)
    requires forall c :: c in text ==> c as int < 0x800
    ensures |Encode(text)| <= 2 * |text|
  {
    if text != "" {
      var c, rest := text[0], text[1..];
      assert c in text && forall x :: x in rest ==> x in text;
      assert |EncodeChar(c)| <= 2;
      EncodeLength(rest);
    }
  }

  /** A touch sends a confirmation exactly when an id and a summary are on the confirmation screen, and then that id. */
  lemma TouchAnswersTheScreen(d: Device, id: string, accepted: bool)
    ensures Touch(d) == Some(Confirmation(id, accepted)) <==>
            && d.authenticated && d.ui.state == "confirm" && d.ui.confirmation != "" && d.ui.summary != ""
            && id == d.ui.confirmation && accepted
    ensures Touch(d) == Some(Confirmation(id, accepted)) ==> ConfirmationFor(d, true) == Touch(d)
  {
  }

  class PipaProtocol {
    var authenticated: bool
    var awaitingReady: bool
    var uiState: string
    var confirmationId: string
    var confirmationSummary: string

    constructor ()
      ensures View() == Device(false, false, false, CLEARED)
    {
      authenticated, awaitingReady := false, false;
      uiState, confirmationId, confirmationSummary := "idle", "", "";
    }

    ghost function View(): Device
      reads this
    {
      Device(false, authenticated, awaitingReady, Ui(uiState, confirmationId, confirmationSummary))
    }

    method ClearSessionUi()
      modifies this`uiState, this`confirmationId, this`confirmationSummary
      ensures View() == old(View()).(ui := CLEARED)
    {
      uiState, confirmationId, confirmationSummary := "idle", "", "";
    }

    method UpdateUi(state: string)
      modifies this`uiState, this`confirmationId, this`confirmationSummary
      ensures View() == old(View()).(ui := UpdatedUi(old(View()).ui, state))
    {
      if state == "idle" || state == "listening" || state == "thinking" || state == "confirm" ||
         state == "speaking" || state == "focus" || state == "dashboard" {
        uiState := state;
      } else {
        uiState := "idle";
      }
      if uiState != "confirm" {
        confirmationId, confirmationSummary := "", "";
      }
    }

    method HandleMessage(message: ServerMessage, signed: bool)
      modifies this
      ensures View() == Receive(old(View()), message, signed)
    {
      match message {
        case ChallengeReply(wellFormed) =>
          if authenticated || awaitingReady || !wellFormed || !signed {
            return;
          }
          awaitingReady := true;
        case ReadyReply(session, ui) =>
          if !awaitingReady || session == "" || |Encode(session)| > 128 {
            return;
          }
          awaitingReady := false;
          authenticated := true;
          if ui.Some? {
            UpdateUi(ui.value);
          }
        case UiUpdate(state) =>
          if !authenticated {
            return;
          }
          UpdateUi(state);
        case ConfirmRequest(id, _, summary, _) =>
          if !authenticated || confirmationId != "" || !DisplaySafe(id, 128) || !DisplaySafe(summary, 256) {
            return;
          }
          confirmationId := id;
          confirmationSummary := summary;
          uiState := "confirm";
        case ToolResult(_, _) =>
          if !authenticated {
            return;
          }
          confirmationId, confirmationSummary := "", "";
        case ErrorReply(code) =>
          if EndsSession(code) {
            authenticated := false;
            awaitingReady := false;
          }
          ClearSessionUi();
        case _ =>
      }
    }

    /** The heartbeat branch of `poll`. */
    method ServerTimedOut()
      modifies this
      ensures View() == if old(authenticated) then Reset(old(View())) else old(View())
    {
      if authenticated {
        authenticated := false;
        awaitingReady := false;
        ClearSessionUi();
      }
    }

    method SendConfirmation(accepted: bool) returns (line: Option<ClientMessage>)
      ensures line == ConfirmationFor(View(), accepted)
    {
      if !authenticated || confirmationId == "" || confirmationSummary == "" {
        return None;
      }
      line := Some(Confirmation(confirmationId, accepted));
    }

    /** A touch answers only what is on the screen, always with yes, and elsewhere it is a gesture. */
    method PollTouch() returns (line: Option<ClientMessage>)
      ensures line == Touch(View())
      ensures line.Some? && line.value.Confirmation? <==>
              authenticated && uiState == "confirm" && confirmationId != "" && confirmationSummary != ""
      ensures line.Some? && line.value.Confirmation? ==> line.value.id == confirmationId && line.value.accepted
      ensures line.Some? && !line.value.Confirmation? ==> line.value.Gesture? && uiState != "confirm"
    {
      if !authenticated {
        return None;
      }
      if uiState == "confirm" {
        line := SendConfirmation(true);
      } else {
        line := Some(Gesture("tap"));
      }
    }
  }

  class PipaSecureProtocol {
    var authenticated: bool
    var uiState: string
    var confirmationId: string
    var confirmationSummary: string

    constructor ()
      ensures View() == Device(true, false, false, CLEARED)
    {
      authenticated := false;
      uiState, confirmationId, confirmationSummary := "idle", "", "";
    }

    ghost function View(): Device
      reads this
    {
      Device(true, authenticated, false, Ui(uiState, confirmationId, confirmationSummary))
    }

    /** `resetHandshake`; a rejected frame ends here too. */
    method ResetHandshake()
      modifies this
      ensures View() == Reset(old(View()))
    {
      authenticated := false;
      uiState, confirmationId, confirmationSummary := "idle", "", "";
    }

    /** The end of `handleServerHello`. */
    method HandshakeAccepted()
      modifies this
      ensures View() == old(View()).(authenticated := true)
    {
      authenticated := true;
    }

    method HandleMessage(message: ServerMessage)
      requires authenticated
      modifies this
      ensures View() == ReceiveSecure(old(View()), message)
    {
      match message {
        case ReadyReply(_, ui) =>
          if ui.Some? {
            UpdateUi(ui.value);
          }
        case UiUpdate(state) =>
          UpdateUi(state);
        case ConfirmRequest(id, _, summary, _) =>
          if confirmationId != "" || !DisplaySafe(id, 128) || !DisplaySafe(summary, 256) {
            return;
          }
          confirmationId := id;
          confirmationSummary := summary;
          uiState := "confirm";
        case ToolResult(_, _) =>
          confirmationId, confirmationSummary := "", "";
        case ErrorReply(code) =>
          if EndsSession(code) {
            ResetHandshake();
          } else {
            uiState, confirmationId, confirmationSummary := "idle", "", "";
          }
        case _ =>
      }
    }

    method UpdateUi(state: string)
      modifies this`uiState, this`confirmationId, this`confirmationSummary
      ensures View() == old(View()).(ui := UpdatedUi(old(View()).ui, state))
    {
      uiState := if state in UI_STATES then state else "idle";
      if uiState != "confirm" {
        confirmationId, confirmationSummary := "", "";
      }
    }

    method SendConfirmation(accepted: bool) returns (frame: Option<ClientMessage>)
      ensures frame == ConfirmationFor(View(), accepted)
    {
      if !authenticated || confirmationId == "" || confirmationSummary == "" {
        return None;
      }
      frame := Some(Confirmation(confirmationId, accepted));
    }
  }
}

# Pipa: a verified model

Pipa is a desk device with a small touch display that talks to a Python core on a Windows host. The core runs tools for it; a
tool marked unsafe may run only after the person in front of the device has confirmed it on the display. Two protocols connect
them: v1 (signed JSON lines) and v2 (an encrypted session that also carries audio). This project models the parts that carry
those promises and proves them.

| file | models |
|---|---|
| `Confirmations`, `Sessions`, `Tools`, `Core` | the core: confirmation table, sessions, router, message handling |
| `CoreInvariant`, `CoreEvents`, `CoreOutcomes` | what every call on the core keeps, what it can cause, and its exact outcome |
| `Firmware` | the device: what it shows and when it sends a tap |
| `ConfirmationGate` | core, devices and lossy channels as one transition system, with the end-to-end theorems |
| `SecureGate` | the gate with v2 sessions on the record layer |
| `Framing`, `RecordLayer` | authenticated texts and nonces; the v2 record layer of both languages under an arbitrary network |
| `SecureAudio`, `FirmwareAudio`, `AudioStreams` | audio senders and receivers of both languages; streams over the record layer |
| `AudioBridge`, `AudioCommands`, `CommandOutcomes` | capture gate, transcriber and command bridge; from sealed samples to one dispatched command, and exactly when |
| `JsonGrammar`, `JsonPolicy` | the duplicate-rejecting JSON scanner and the grammar it is measured against |
| `Utf8`, `DisplayText`, `Base64Url`, `LineReader` | the device's codecs |
| `ReplayCache`, `TrustedUnlock`, `TrustedRuns`, `TrustedOutcomes` | caches that must stay one-use although they expire and evict, and exactly what they accept |
| `SessionOrigins` | the verifier next to the gate: where v1 sessions come from |
| `Prelude` | shared vocabulary |

Class methods are proved against functions on values (the view before and after), and the theorems are about runs of
those functions. `dafny verify dfyconfig.toml` verifies the whole project.

## Assumptions

- Identifiers, tokens and challenge ids are random and never repeat: each step that draws one draws a value not used before.
- One call on the core, the verifier or the issuer is one atomic step; calls of different sessions interleave arbitrarily.
- The clock moves forward in `CoreInvariant`, `ConfirmationGate` (hence in `SecureGate` and `SessionOrigins`) and `ReplayCache`, and one call on the core lasts at most 900 s
  minus the lifetime of a confirmation. `TrustedRuns` assumes nothing about clock readings.
- Cryptography is symbolic. A ciphertext opens only under the key, nonce and associated data it was sealed with, and nobody
  makes one without the key (RFC 8439 section 2.8); key derivation gives the two directions different keys; a signature names
  its key and what it covers.
- On v1 serial lines, which carry no authentication of their own, two kinds of line are assumed not to be forged: the request
  that puts a confirmation on a device's screen, and the `confirm` that arrives on a device's session. They may be lost,
  repeated, delayed and reordered, and every other line may be anything. On v2 sessions neither is assumed: `SecureGate`
  derives both from the record layer. Sessions of clients that are not modelled devices may send anything.
- The digest that binds a tool call to its tool and arguments (canonical JSON, then SHA-256) is a function that is a parameter.
- What lies outside (tool callbacks, transcription provider, dispatcher, intent recognition, memory, transport) is a parameter
  of the step that uses it, and may answer anything.

## Findings

- A stream id is not checked for reuse on the sending side. On every session that has caught up, a new sender can lead to a
  stream that mixes two senders and is reported complete if and only if its id is that of a sender that can still seal
  (`AudioStreams.ReuseMixesExactly`; `AudioStreams.SomeRunMixesStreams` is such a run from the start). A caller can check this
  before it creates the sender. While ids are kept apart, `AudioStreams.DeliveredIsPrefixOfOneStream` and
  `AudioCommands.DispatchesOneSender` hold; everything else about audio holds without that.
- The scanner's numbers are wider than those of RFC 8259 section 6; `JsonGrammar.NumbersAreWider` states the containment and
  gives a number that only the scanner accepts. Everything else about the grammar is exact.
- The firmware's record layer never uses the last of the 64-bit sequence numbers, which the Python one does. The model carries
  the number of usable sequence numbers of each end; nothing proved depends on their being equal.
- The consumed-challenge table adds nothing to the safety of `verify_response`: `TrustedOutcomes.AcceptedExactly` holds without it.

## Model

| member | source | states |
|---|---|---|
| `ConfirmationGate.ConfirmedRunsWereShown` | backend/pipa_core/core.py:666-682 | Over every run, with lines lost, repeated, reordered and, other than a request shown on a screen and a `confirm` on a device's session, forged: every handler call made through a confirmation uses a record minted earlier for the same session and tool by a session that had announced display and touch, with the arguments frozen then; the session's device was tapped in between while showing that id under exactly that tool's label; no other handler call uses the same record |
| `SecureGate.SecureRunsWereShown` | windows-agent/secure_core_connection.py:101-125 | The same theorem with every v2 session on a record layer under a network that may do anything: nothing is assumed of v2 lines in either direction |
| `ConfirmationGate.AskedIsShownAndRun` | backend/pipa_core/core.py:666-682 | End to end, from every reachable state: a ready session of a modelled device that makes an acceptable unsafe request gets its request; delivered to the authenticated device with an empty screen it is shown with the tool's label; the touch sends a yes to it; and that answer, in time and with arguments still valid, runs exactly that tool with the frozen arguments |
| `SecureGate.StepIsGateStep` | windows-agent/secure_core_connection.py:101-125 | Every step of that system is a step of the gate: a confirm the host takes from a v2 session was sent by that device, and a request the device shows was a reply of the core |
| `SecureGate.StepKeepsInv` | firmware/src/pipa_secure_protocol.cpp:186-248 | Opening, sealing, closing and every gate step keep: everything sealed on a v2 session was the device's to send or the core's to reply |
| `SecureGate.OpenedWasSealed` | firmware/src/pipa_secure_protocol.cpp:216-230 | What opens as a control record was sealed as one by the other side |
| `SecureGate.HostHearsExactly` | windows-agent/secure_core_connection.py:101-125 | In every reachable state the core is handed a message of a v2 session if and only if the frame is the device's next control record and reads as that message; every other frame ends the session |
| `SecureGate.DeviceHearsExactly` | firmware/src/pipa_secure_protocol.cpp:216-248 | In every reachable state the device takes exactly the host's next control record, if it can read it; every other frame loses the server |
| `ConfirmationGate.UnsafeRunsAreConfirmed` | backend/pipa_core/tools.py:72-116 | Over every run: a tool registered as unsafe never runs except through a confirmation |
| `ConfirmationGate.SecureSessionsActAfterHello` | windows-agent/secure_core_connection.py:86-91 | Over every run: a v2 session mints no record and runs no handler before its device hello, and has at most one |
| `ConfirmationGate.CapabilitiesNeverChange` | backend/pipa_core/core.py:313-327 | Over every run: once a session's capabilities are known, they and its device are the same at every later moment of its life |
| `ConfirmationGate.ReadySessionsAreAsked` | backend/pipa_core/core.py:627-689 | In every reachable state a ready session that can confirm gets its confirmation for an acceptable unsafe request, made by a tool call (bound to a digest or not), a text or a transcript: neither limit can refuse it |
| `ConfirmationGate.AnswersRunExactly` | backend/pipa_core/core.py:391-434 | In every reachable state an answer runs a handler if and only if it is a yes to an unexpired record of its own session whose arguments are still valid; then exactly that record's tool runs, with its frozen arguments, and the record is gone |
| `ConfirmationGate.StepKeepsInv` | backend/pipa_core/core.py:298-436 | Every step of Core, devices and channels keeps the system invariant (what is pending, on the wire, on a screen or in the log is explained by earlier log entries) |
| `ConfirmationGate.BehaviourKeepsInv` | backend/pipa_core/core.py:298-436 | The system invariant holds in every state of every run |
| `ConfirmationGate.MintedOnce` | backend/pipa_core/confirmations.py:92-109 | Two log entries that mint the same id are the same record |
| `ConfirmationGate.TapNamesRecord` | firmware/src/pipa_protocol.cpp:97-105 | A logged tap names a record minted before it for a session of that device, by its label |
| `ConfirmationGate.CallExplained` | backend/pipa_core/core.py:596-689 | Whatever event one Core call causes is explained by the log so far |
| `CoreInvariant.HandleKeeps` | backend/pipa_core/core.py:298-436 | With a forward clock, handling any message keeps: each unexpired record belongs to a live, capable session in state confirm, at most one per session, and expires no later than the session can go idle |
| `CoreInvariant.HandleTranscriptKeeps` | backend/pipa_core/core.py:444-477 | The same for a transcript |
| `CoreInvariant.OpenKeeps` | backend/pipa_core/state.py:61-87 | The same for opening a v1 or v2 session, although the registry's own pruning cancels nothing: the records it orphans have already expired |
| `CoreInvariant.ClosedKeeps` | backend/pipa_core/core.py:294-296 | The same for closing a session |
| `CoreInvariant.PruneStaleKeeps` | backend/pipa_core/core.py:438-442 | The same for pruning idle sessions |
| `CoreInvariant.LimitsNeverFire` | backend/pipa_core/confirmations.py:100-108 | In such a state neither the 128-record nor the 4-per-session limit refuses a session that has nothing pending |
| `CoreInvariant.RecordKeeps` | backend/pipa_core/core.py:666-682 | Adding a record leaves its session in confirm, waiting for exactly that record |
| `CoreInvariant.ResolveKeeps` | backend/pipa_core/core.py:391-434 | Answering a confirmation, in every outcome, keeps the invariant |
| `CoreEvents.HandleShape` | backend/pipa_core/core.py:298-436 | One message causes at most one event, justified by the state it found; every confirmation request in the replies is for the record just minted, under its fixed label; a run record is gone afterwards |
| `CoreEvents.HandleTranscriptShape` | backend/pipa_core/core.py:444-477 | The same for a transcript |
| `CoreEvents.InvokeCases` | backend/pipa_core/tools.py:72-116 | What a router call can do: run a safe tool, mint one record, or nothing |
| `CoreEvents.ResolveShape` | backend/pipa_core/core.py:391-434 | An accepted confirmation runs only the live record of that very session that the message names |
| `CoreOutcomes.MisboundCallsAreRefused` | backend/pipa_core/core.py:364-390 | A ready session's tool call is refused for its request digest if and only if it carries one that is not the digest of its own tool and arguments; then nothing runs, nothing is created and the session rests |
| `CoreOutcomes.OrderOutcomes` | backend/pipa_core/core.py:596-688 | For every order of a ready session that is not asked about: which handler runs with what, the reply, and that the session rests with nothing created |
| `CoreOutcomes.AnswerOutcomes` | backend/pipa_core/core.py:391-434 | For every answer: whether something runs, the exact replies, and exactly which records are left, with everything of the session cancelled when the answer fails |
| `CoreOutcomes.OpensExactly` | backend/pipa_core/state.py:61-87 | A session is opened if and only if fewer than 32 unexpired sessions are registered, fewer than two of them the device's; the registry is then exactly those and the new one |
| `CoreOutcomes.PruneIsExact` | backend/pipa_core/core.py:438-442 | Pruning keeps exactly the sessions seen within 900 s, and exactly the records none of the removed sessions owned |
| `CoreOutcomes.CloseIsExact` | backend/pipa_core/core.py:294-296 | Closing removes exactly that session and its records |
| `CoreOutcomes.HelloOutcome` | backend/pipa_core/core.py:313-319 | The first hello of a session without capabilities is accepted with what it announces, and no other is |
| `CoreOutcomes.GuardOutcomes` | backend/pipa_core/core.py:320-339 | Before the hello, and while a confirmation is open, every other message is refused and changes nothing |
| `CoreOutcomes.AbortOutcome` | backend/pipa_core/core.py:356-359 | An abort is always obeyed: the session rests and nothing it owned is left |
| `CoreOutcomes.ScreenOutcomes` | backend/pipa_core/core.py:341-361 | Wake, hold, audio end, gesture and catalog messages: the reply, the screen, and that nothing else changed |
| `CoreOutcomes.StatusOutcomes` | backend/pipa_core/core.py:306-312 | Ping and status are answered in every state and change nothing |
| `CoreOutcomes.UnknownSessionsAreRefused` | backend/pipa_core/core.py:298-305 | A call for a session that is unknown or idle too long is refused and only prunes |
| `CoreOutcomes.UnreadTextsAreRefused` | backend/pipa_core/core.py:479-519 | A text or transcript without a recognised command is refused with its reason and the session rests |
| `CoreOutcomes.TranscriptGuards` | backend/pipa_core/core.py:444-477 | A transcript of a session that is unknown, not announced or waiting for a confirmation is refused with that reason and changes nothing |
| `Core.PipaCore.Handle` | backend/pipa_core/core.py:298-436 | In place: pruning, touch and dispatch change sessions and confirmations exactly as the specification of one call says |
| `Core.PipaCore.HandleTranscript` | backend/pipa_core/core.py:444-477 | The same for a transcript |
| `Core.PipaCore.Dispatch` | backend/pipa_core/core.py:306-339 | The guards before a request: ping, status, hello, readiness, catalog, pending confirmation |
| `Core.PipaCore.DispatchRequest` | backend/pipa_core/core.py:341-436 | The requests themselves, a tool call only if its digest is the one of its tool and arguments |
| `Core.PipaCore.RunTool` | backend/pipa_core/core.py:596-644 | Memory tools, the display-and-touch requirement of unsafe tools, then the router |
| `Core.PipaCore.InvokeTool` | backend/pipa_core/core.py:645-689 | The router's answer becomes a result, an error, or a confirmation request with the session in confirm |
| `Core.PipaCore.Resolve` | backend/pipa_core/core.py:391-434 | One answer: rejected, resolved, or failed with everything of the session cancelled |
| `Core.PipaCore.RouteTranscript` | backend/pipa_core/core.py:479-519 | Text becomes a recognised tool call or a refusal |
| `Core.PipaCore.Authenticate` | backend/pipa_core/core.py:271-292 | A v1 session after its challenge was verified: prune and cancel, then create |
| `Core.PipaCore.OpenSecure` | windows-agent/secure_core_connection.py:86-91 | A v2 session: created without usable capabilities |
| `Core.PipaCore.Close` | backend/pipa_core/core.py:294-296 | Cancels what the session owns, then removes it |
| `Core.PipaCore.PruneStaleSessions` | backend/pipa_core/core.py:438-442 | Removes every idle session and cancels what each owned |
| `Confirmations.ConfirmationManager.Create` | backend/pipa_core/confirmations.py:64-109 | Validates, prunes, applies both limits, mints; new table stated outright |
| `Confirmations.ConfirmationManager.Consume` | backend/pipa_core/confirmations.py:111-126 | One-use removal, refused when missing, expired or of another owner |
| `Confirmations.ConfirmationManager.CancelForOwner` | backend/pipa_core/confirmations.py:128-137 | Removes exactly the owner's records and reports how many |
| `Confirmations.ConfirmationManager.Prune` | backend/pipa_core/confirmations.py:139-142 | Removes exactly the expired records |
| `Confirmations.ConsumedOnce` | backend/pipa_core/confirmations.py:111-126 | A consumed id can never be consumed again, by anyone at any time |
| `Confirmations.ConsumableExactlyUntilExpiry` | backend/pipa_core/confirmations.py:92-126 | A created record can be consumed if and only if it is unexpired and asked for by its owner |
| `Confirmations.CreatesExactly` | backend/pipa_core/confirmations.py:64-109 | A record is created if and only if the request has a visible summary, a usable call id and a well-formed digest (if any), and there are fewer than 128 unexpired records, fewer than four of its owner; what the record then says |
| `Confirmations.LimitsHold` | backend/pipa_core/confirmations.py:100-108 | No call makes more than 128 records, or more than four of one owner |
| `Confirmations.CancelMore` | backend/pipa_core/confirmations.py:128-137 | Cancelling owner by owner is cancelling the set |
| `Sessions.SessionRegistry.Create` | backend/pipa_core/state.py:61-87 | Prunes silently, then refuses beyond 32 sessions or 2 per device, else files one fresh session |
| `Sessions.SessionRegistry.CheckLimits` | backend/pipa_core/state.py:81-85 | Which limit refuses |
| `Sessions.SessionRegistry.Prune` | backend/pipa_core/state.py:93-105 | Removes and reports exactly the sessions idle for 900 s |
| `Sessions.SessionRegistry.Remove` | backend/pipa_core/state.py:107-109 | Removes exactly that session |
| `Sessions.DeviceSession.SetState` | backend/pipa_core/state.py:41-45 | Changes the screen state and nothing else |
| `Sessions.DeviceSession.Touch` | backend/pipa_core/state.py:38-39 | Changes the last-seen time and nothing else |
| `Tools.ToolRouter.Invoke` | backend/pipa_core/tools.py:72-116 | Safe tools run at once; unsafe ones mint a record, or consume one and run its snapshot |
| `Tools.ToolRouter.ResolveConfirmation` | backend/pipa_core/tools.py:118-144 | Consumes first, then rejects or runs the stored execution snapshot |
| `Tools.ToolRouter.CancelPending` | backend/pipa_core/tools.py:146-150 | Cancels exactly the owner's records |
| `Tools.ConfirmedInvokeExactly` | backend/pipa_core/tools.py:72-116 | Invoking with the confirmation an earlier call asked for runs the tool if and only if it is the same tool, its arguments still pass, the record is unexpired and the owner the same; it runs with what was frozen, and the record is gone even when another tool is named |
| `Firmware.PipaProtocol.HandleMessage` | firmware/src/pipa_protocol.cpp:141-230 | v1 device: how every message changes authentication and screen |
| `Firmware.PipaProtocol.UpdateUi` | firmware/src/pipa_protocol.cpp:317-333 | Unknown states read as idle, and only confirm keeps a visible confirmation |
| `Firmware.PipaProtocol.SendConfirmation` | firmware/src/pipa_protocol.cpp:97-105 | A tap is sent only while an id and a summary are both held, and names that id |
| `Firmware.PipaProtocol.ServerTimedOut` | firmware/src/pipa_protocol.cpp:48-56 | Losing the server clears the screen |
| `Firmware.PipaProtocol.PollTouch` | firmware/src/main.cpp:117-130 | A touch sends a confirm if and only if an id and a summary are on the confirmation screen, and then a yes to that id; anywhere else it sends a gesture or nothing |
| `Firmware.TouchAnswersTheScreen` | firmware/src/main.cpp:117-130 | For every device state: which touches send which confirm. The touch is a step of `ConfirmationGate` |
| `Firmware.PipaSecureProtocol.HandleMessage` | firmware/src/pipa_secure_protocol.cpp:262-300 | v2 device: the same, on authenticated plaintext only |
| `Firmware.PipaSecureProtocol.ResetHandshake` | firmware/src/pipa_secure_protocol.cpp:477-485 | Drops authentication and clears the screen |
| `Firmware.PipaSecureProtocol.SendConfirmation` | firmware/src/pipa_secure_protocol.cpp:114-122 | As in v1 |
| `Firmware.ShowsOnlyWhatArrived` | firmware/src/pipa_protocol.cpp:179-199 | What a device shows came whole from one request, received while it showed nothing |
| `Firmware.ShowsExactly` | firmware/src/pipa_protocol.cpp:181-199 | For every v1 or v2 device: a confirmation request is shown, whole, if and only if the device is authenticated, holds no id, and both texts are non-empty, within their bounds and free of banned scalars; otherwise the screen does not change |
| `Firmware.ScreensExactly` | firmware/src/pipa_protocol.cpp:179-230 | For every device and every message: exactly how the screen changes |
| `Firmware.AuthenticatesExactly` | firmware/src/pipa_protocol.cpp:141-180 | For every device and every message: exactly when it becomes authenticated |
| `Firmware.LabelsFit` | backend/pipa_core/core.py:68-89 | Every label the core sends passes the device's own filter within 256 bytes |
| `RecordLayer.OpensExactlyTheNext` | windows-agent/secure_session.py:515-551 | In every reachable state, whatever the network delivers: a frame opens if and only if the session is open and it is the peer's next frame, unchanged and with its associated data; it opens to the sealed payload |
| `RecordLayer.SealsExactly` | windows-agent/secure_session.py:494-513 | In every reachable state a seal succeeds if and only if the end is open, the payload has at most 65536 bytes, the data at most 1024, and a sequence number is left; a peer that has opened everything before it opens it to the payload |
| `RecordLayer.OpenedIsPrefixOfSealed` | windows-agent/secure_session.py:494-551 | Over every run with dropped, repeated, reordered, reflected and invented frames: payloads and associated data opened by one side are a prefix of those sealed by the other |
| `RecordLayer.NoNonceIsReused` | windows-agent/secure_session.py:560-562 | Over every run no two ciphertexts, of either side, share key and nonce |
| `RecordLayer.NothingOpensTwice` | windows-agent/secure_session.py:525-527 | Over every run a ciphertext opens at most once |
| `RecordLayer.StepKeepsInv` | windows-agent/secure_session.py:463-569 | Sealing, delivering anything deliverable and closing keep the two-way record-layer invariant |
| `RecordLayer.BehaviourKeepsInv` | windows-agent/secure_session.py:463-569 | It holds in every state of every run |
| `RecordLayer.OnlyGrows` | windows-agent/secure_session.py:494-551 | Logs and wire only grow over a run |
| `RecordLayer.SecureSession.Seal` | windows-agent/secure_session.py:494-513 | New state and frame of one seal, with every refusal |
| `RecordLayer.SecureSession.Open` | windows-agent/secure_session.py:515-551 | New state and payload of one open, with every refusal in order; a refusal changes nothing |
| `RecordLayer.SecureSession.Close` | windows-agent/secure_session.py:553-558 | Closes and changes nothing else |
| `RecordLayer.SecureSession.FromSharedSecret` | windows-agent/secure_session.py:385-421 | Each role sends with its own key and prefix and receives with the other's |
| `RecordLayer.PipaSecureSession.BeginFromSharedSecret` | firmware/src/pipa_secure_session.cpp:73-121 | The same split on the device; a failed start leaves no earlier session usable |
| `RecordLayer.PipaSecureSession.Seal` | firmware/src/pipa_secure_session.cpp:123-153 | Agrees with the Python seal whenever the buffer is large enough, without 64-bit overflow, stopping one sequence number earlier |
| `RecordLayer.PipaSecureSession.Open` | firmware/src/pipa_secure_session.cpp:155-193 | Agrees with the Python open whenever the buffer is large enough, without 64-bit overflow |
| `RecordLayer.PipaSecureSession.Clear` | firmware/src/pipa_secure_session.cpp:195-204 | Erases keys, prefixes and counters |
| `Framing.HeaderDecodes` | firmware/src/pipa_secure_session.cpp:41-53 | Header followed by associated data determines the sequence, the session id and the data |
| `Framing.AudioAadDecodes` | firmware/src/pipa_secure_audio.cpp:62-73 | Audio associated data determines stream id, chunk index and final flag |
| `Framing.AudioIsNotJson` | windows-agent/secure_audio.py:199-200 | Audio and control associated data never coincide |
| `Framing.SignedTextsDecode` | firmware/src/pipa_secure_handshake.cpp:111-160 | Client-signed, server-signed and transcript texts each determine every field in them |
| `Framing.RolesAreDisjoint` | firmware/src/pipa_secure_handshake.cpp:120-160 | Client-signed and server-signed texts are never equal, nor equal to an unsigned text or a transcript |
| `Framing.NonceInjective` | firmware/src/pipa_secure_session.cpp:54-62 | Different 64-bit sequence numbers give different nonces |
| `Framing.NonceValue` | firmware/src/pipa_secure_session.cpp:54-62 | The last eight bytes of a nonce, read most significant first, are the sequence number |
| `Framing.DecimalValue` | firmware/src/pipa_secure_session.cpp:41-53 | The decimal text of a sequence number in a header reads as that number and has no leading zero |
| `Framing.BuildNonce` | firmware/src/pipa_secure_session.cpp:54-62 | The byte-by-byte loop writes prefix and big-endian sequence |
| `AudioStreams.DeliveredChunksAreGenuine` | windows-agent/secure_audio.py:303-343 | Over every run, every chunking and interleaving with control records, every network and every use of stream ids: each delivered chunk is the chunk of its index of a sender with the stream's id; the stream is reported complete exactly when the last one was that sender's final chunk; the byte count is right and at most 262144 |
| `AudioStreams.DeliveredIsPrefixOfOneStream` | windows-agent/secure_audio.py:303-343 | Over every run in which a sender takes an id only after its earlier senders finished or were cancelled: what the receiver delivered since it last forgot a stream is a beginning of one sender's samples, and complete means all of them |
| `AudioStreams.ReuseMixesExactly` | windows-agent/secure_audio.py:231-276 | On every caught-up session: some continuation makes the receiver report a mixture of senders as complete if and only if the new sender's id is that of one that can still seal |
| `AudioStreams.DeliversExactlyTheNext` | windows-agent/secure_audio.py:303-343 | In every reachable state, however stream ids are used, a frame is delivered if and only if it is the chunk whose turn it is, unchanged, and then with the sealed samples |
| `AudioStreams.SealsExactly` | windows-agent/secure_audio.py:240-269 | In every reachable state a sender seals if and only if its stream is neither finished nor cancelled, the samples are good, the 64th chunk is the last, the session is open and a sequence number is left; the frame says what was sealed and where in the stream |
| `AudioStreams.NothingAfterRejection` | windows-agent/secure_audio.py:337-343 | Over every run, however stream ids are used, after one rejected frame every later frame is rejected |
| `AudioStreams.ReusedIdCanMix` | windows-agent/secure_audio.py:231-276 | From every caught-up state with an unfinished sender, a new sender with its id can be made to share one stream, reported complete, that begins neither sender's samples |
| `AudioStreams.SomeRunMixesStreams` | windows-agent/secure_audio.py:231-276 | Such a state is reachable: a run from the start that mixes two streams |
| `AudioStreams.StepKeepsInv` | windows-agent/secure_audio.py:228-358 | Every step of senders, network, receiver and control records keeps the stream invariant, however stream ids are used |
| `AudioStreams.StepKeepsApartInv` | windows-agent/secure_audio.py:228-358 | A step that keeps ids apart also keeps: senders sharing an id took turns, and everything delivered came from one sender |
| `AudioStreams.SameSender` | windows-agent/secure_audio.py:314-321 | While ids are kept apart, a chunk opened right after the previous one, up to control records, comes from the same sender |
| `AudioStreams.AudioIsTagged` | windows-agent/secure_audio.py:323-323 | An opened audio record is the chunk it claims to be |
| `AudioStreams.StepsAreTheirs` | windows-agent/secure_audio.py:240-343 | The system's session ends are exactly what the sender and the receiver make of them |
| `SecureAudio.SenderStaysInBounds` | windows-agent/secure_audio.py:240-276 | At most 4096 bytes per chunk and 8192 ms in all; the chunk-count and stream-size guards never fire; the 64th chunk is final |
| `SecureAudio.ReceiverStaysInBounds` | windows-agent/secure_audio.py:303-336 | The same for the receiver: its stream-size guard never fires |
| `SecureAudio.SecureAudioSender.SealChunk` | windows-agent/secure_audio.py:240-269 | New sender state, session and frame, with every refusal |
| `SecureAudio.SecureAudioSender.Cancel` | windows-agent/secure_audio.py:271-276 | A cancelled sender is finished for good |
| `SecureAudio.SecureAudioReceiver.OpenChunk` | windows-agent/secure_audio.py:303-343 | New receiver state, session and samples; any failure forgets the stream and closes the session |
| `SecureAudio.SecureAudioReceiver.Cancel` | windows-agent/secure_audio.py:345-348 | Forgets the stream and keeps the session |
| `SecureAudio.SecureAudioReceiver.Close` | windows-agent/secure_audio.py:350-352 | Forgets the stream and closes the session |
| `FirmwareAudio.BuildAdditionalData` | firmware/src/pipa_secure_audio.cpp:45-78 | The device's piecewise concatenation is the same associated data |
| `FirmwareAudio.PipaSecureAudioSender.SealChunk` | firmware/src/pipa_secure_audio.cpp:87-136 | The device seals exactly the chunks the Python sender would, in the same frames |
| `FirmwareAudio.PipaSecureAudioReceiver.OpenChunk` | firmware/src/pipa_secure_audio.cpp:144-212 | The device delivers exactly the chunks the Python receiver would that fit the buffer; any failure zeroes the buffer and ends the session |
| `FirmwareAudio.PipaSecureAudioReceiver.FailClosed` | firmware/src/pipa_secure_audio.cpp:227-235 | Zeroes the whole buffer, forgets the stream, clears the session |
| `AudioCommands.DispatchesAreEarned` | windows-agent/secure_audio.py:674-700 | Over every run, however stream ids are used: each dispatched text is the stripped, validated answer of the provider to the final chunk of a stream of which it heard every chunk in order since the last cancellation, each a genuine chunk of that index, after capture was opened with display, consent and secure transport all true |
| `AudioCommands.DispatchesOneSender` | windows-agent/secure_audio.py:674-700 | While ids are kept apart, that stream was all of one sender's |
| `CommandOutcomes.FinalizesExactly` | windows-agent/secure_audio.py:674-700 | In every reachable state finalizing dispatches a text if and only if the bridge is attached and open, capture is still open, and the log says that a whole stream was heard and that the provider answered its last chunk with that text; it replies with a summary, of all the samples heard, if and only if the dispatcher then returned; in every case the bridge is detached and the session closed |
| `CommandOutcomes.ConsumesExactly` | windows-agent/secure_audio.py:421-459 | In every reachable state the provider is given a chunk if and only if capture is open and the frame is the next chunk, as sealed; the bridge stays open if and only if the provider answers nothing, or a bounded text to the last chunk |
| `CommandOutcomes.BeginsExactly` | windows-agent/secure_audio.py:657-669 | In every reachable state capture opens if and only if the bridge is open, the codec ready, and display, consent and transport are all true |
| `CommandOutcomes.CancelsExactly` | windows-agent/secure_audio.py:702-707 | In every reachable state cancelling forgets the stream and leaves the bridge open for the next one, unless resetting the provider fails |
| `CommandOutcomes.EveryCommandCanBeGiven` | windows-agent/secure_audio.py:630-700 | From every idle bridge, any recording of one to 64 good chunks can be sent, and whatever bounded text the provider makes of it is dispatched, with the summary of all its samples as the reply |
| `CommandOutcomes.StartsIdle` | windows-agent/secure_audio.py:97-106 | A new bridge is idle once its codec is up |
| `AudioBridge.DispatchedOnce` | windows-agent/secure_audio.py:630-721 | Over every sequence of operations, and whatever else happens between them to session, receiver, gate, consumer and transcriber, a bridge dispatches at most once |
| `AudioBridge.DispatchDetaches` | windows-agent/secure_audio.py:674-714 | One operation logs at most one event; it dispatches only while attached and is detached afterwards for good |
| `AudioCommands.LogHoldsOneDispatch` | windows-agent/secure_audio.py:630-721 | Over every run of the whole audio system, however stream ids are used, the log holds at most one dispatch |
| `AudioCommands.StepKeepsInv` | windows-agent/secure_audio.py:361-721 | Every operation and every other step, however stream ids are used, keeps: gate, consumer and transcriber states are what the callback log says |
| `AudioCommands.ReceiverAgrees` | windows-agent/secure_audio.py:421-492 | The bridge's operations and the audio system describe the same session and receiver |
| `AudioBridge.SecureAudioCommandBridge.ConsumeFrame` | windows-agent/secure_audio.py:421-459 | One frame: closed, finished, inactive gate, rejected, callback failure or delivered, with the callback made |
| `AudioBridge.SecureAudioCommandBridge.ConsumeChunk` | windows-agent/secure_audio.py:611-627 | Partial transcripts, second transcripts and invalid text are errors |
| `AudioBridge.SecureAudioCommandBridge.FinalizeTranscriber` | windows-agent/secure_audio.py:461-470 | Only a whole stream on a listening gate finalizes |
| `AudioBridge.SecureAudioCommandBridge.Finalize` | windows-agent/secure_audio.py:674-700 | In place: finalizes the transcriber, dispatches its text and closes on every path, as the function does of which `CommandOutcomes.FinalizesExactly` is proved |
| `AudioBridge.SecureAudioCommandBridge.Cancel` | windows-agent/secure_audio.py:702-707 | Forgets stream and transcript; a failing provider reset closes everything |
| `AudioBridge.SecureAudioCommandBridge.Close` | windows-agent/secure_audio.py:709-714 | Closes transcriber, consumer and session once |
| `AudioBridge.SecureAudioCommandBridge.BeginCapture` | windows-agent/secure_audio.py:657-669 | Opens the gate only when all three conditions hold |
| `AudioBridge.AudioCaptureGate.BeginListening` | windows-agent/secure_audio.py:108-125 | Listening begins if and only if the codec is ready and display, consent and transport are all true |
| `AudioBridge.AudioCaptureGate.MarkCodecReady` | windows-agent/secure_audio.py:97-106 | Only a disabled or failed gate becomes ready |
| `JsonPolicy.IsDuplicateFreeJson` | firmware/src/pipa_json_policy.cpp:226-228 | Accepts a byte string if and only if it is one document: a value of the grammar within 32 levels, blanks around it, and no object with two keys equal after decoding |
| `JsonPolicy.AcceptsExactlyDocuments` | firmware/src/pipa_json_policy.cpp:46-53 | The specification of the scanner accepts exactly the documents of the separately defined grammar |
| `JsonPolicy.AcceptedIsDocument` | firmware/src/pipa_json_policy.cpp:46-53 | Soundness: what is accepted has a syntax tree whose text it is |
| `JsonPolicy.DocumentIsAccepted` | firmware/src/pipa_json_policy.cpp:46-53 | Completeness: every document is accepted |
| `JsonPolicy.MembersAreThere` | firmware/src/pipa_json_policy.cpp:89-109 | Members found stand in the text and no two of their decoded keys are equal |
| `JsonPolicy.MembersAreFound` | firmware/src/pipa_json_policy.cpp:89-109 | Members that stand in the text with pairwise different decoded keys are found |
| `JsonPolicy.PiecesAreFound` | firmware/src/pipa_json_policy.cpp:124-183 | A well-formed string is read as exactly its pieces |
| `JsonPolicy.NumeralIsFound` | firmware/src/pipa_json_policy.cpp:203-222 | A number of the scanner's language is read to its end |
| `JsonPolicy.JsonScanner.DuplicateFree` | firmware/src/pipa_json_policy.cpp:46-52 | The scanner object, from its first byte, accepts exactly the documents |
| `JsonPolicy.JsonScanner.ParseString` | firmware/src/pipa_json_policy.cpp:124-183 | Advances over the string found and returns its decoded bytes |
| `JsonPolicy.JsonScanner.ReadUnicodeEscape` | firmware/src/pipa_json_policy.cpp:185-194 | Four hexadecimal digits, without 16-bit overflow |
| `JsonPolicy.JsonScanner.ParseNumber` | firmware/src/pipa_json_policy.cpp:203-222 | Advances over the number found |
| `JsonPolicy.JsonScanner.ParseValue` | firmware/src/pipa_json_policy.cpp:65-87 | Accepts and advances exactly as the specification says, within the nesting limit |
| `JsonPolicy.JsonScanner.ParseObject` | firmware/src/pipa_json_policy.cpp:89-109 | The same for an object, comparing each decoded key with all earlier ones |
| `JsonPolicy.JsonScanner.ParseArray` | firmware/src/pipa_json_policy.cpp:111-122 | The same for an array |
| `JsonPolicy.JsonScanner.ConsumeLiteral` | firmware/src/pipa_json_policy.cpp:196-201 | Advances over a whole word or fails |
| `JsonGrammar.NumbersAreWider` | firmware/src/pipa_json_policy.cpp:203-217 | The text of every RFC 8259 number is that of a scanner number; a lone minus sign is one, and is not the text of any RFC number |
| `Utf8.IsSafeDisplayText` | firmware/src/pipa_text_policy.h:12-73 | Accepts exactly the non-empty, length-bounded UTF-8 encodings of texts without banned scalars, which are the texts the Core's own filter passes |
| `Utf8.DecodeFirstInvertsEncodeChar` | firmware/src/pipa_json_policy.cpp:24-40 | Reading undoes writing for every scalar, whatever follows |
| `Utf8.EncodeCharInvertsDecodeFirst` | firmware/src/pipa_text_policy.h:18-66 | What is read as a scalar is that scalar's only encoding |
| `Utf8.SafeFromEncode` | firmware/src/pipa_text_policy.h:18-70 | The encoding of a text is accepted if and only if no scalar is banned |
| `Utf8.EncodeInjective` | firmware/src/pipa_json_policy.cpp:24-40 | Equal encodings come from equal texts |
| `Utf8.CatalogSafeIsDisplayable` | backend/pipa_core/core.py:93-102 | Core and firmware ban the same characters |
| `Utf8.ReadScalar` | firmware/src/pipa_text_policy.h:18-60 | The lead-byte classification reads exactly the well-formed sequences of RFC 3629 |
| `Base64Url.DecodeFixed` | firmware/src/pipa_secure_handshake.cpp:75-109 | Accepts a text if and only if it is the canonical encoding of some byte string of the output's length, and writes that byte string |
| `Base64Url.Decode` | firmware/src/pipa_secure_protocol.cpp:400-429 | Accepts a text if and only if it is the canonical encoding of a non-empty byte string that fits (of exactly that length when no length is asked for), and writes it: the same texts and bytes as the other decoder |
| `Base64Url.EncodeBase64Url` | firmware/src/pipa_secure_handshake.cpp:59-73 | The three-byte loop computes the encoding |
| `Base64Url.EncodeKeepsValue` | firmware/src/pipa_secure_handshake.cpp:59-73 | Read in base 64, the encoding is the bytes read in base 256, shifted by the zero padding bits |
| `Base64Url.DecodedText` | firmware/src/pipa_secure_handshake.cpp:90-108 | A fully decoded text is the encoding of exactly one byte string when the left-over bits are zero, and of none otherwise |
| `Base64Url.DecodeStep` | firmware/src/pipa_secure_handshake.cpp:91-105 | One character keeps the accumulator below 2 to the number of waiting bits, so it never exceeds 12 of its 32 bits |
| `Base64Url.EncodeIsInjective` | firmware/src/pipa_secure_handshake.cpp:59-73 | No text encodes two byte strings |
| `Base64Url.AlphabetIsRfc4648` | firmware/src/pipa_secure_handshake.cpp:14-26 | Encoder and decoder use the 64 characters of table 2 of RFC 4648 in their order, and the decoder no others |
| `DisplayText.NormalizeSummary` | firmware/src/pipa_display_text.cpp:89-120 | The loop computes the specified glyphs, bounded and trimmed |
| `DisplayText.MappedUtf8` | firmware/src/pipa_display_text.cpp:9-81 | On every byte string the mapper advances in step with the validator's decoder, and shows one glyph per scalar or a question mark per bad byte |
| `DisplayText.NormalizedIsPlain` | firmware/src/pipa_display_text.cpp:89-120 | For all bytes: at most 96 printable ASCII characters without lower case, trimmed |
| `DisplayText.NormalizedIsStable` | firmware/src/pipa_display_text.cpp:89-120 | Normalising twice is normalising once |
| `DisplayText.ShownText` | firmware/src/pipa_display_text.cpp:96-114 | A text is shown as one glyph per scalar, in order |
| `DisplayText.AcceptedIsShown` | firmware/src/pipa_text_policy.h:12-73 | A summary the validator accepts is shown as the glyphs of the text it stands for |
| `DisplayText.SplitSummary` | firmware/src/pipa_display_text.cpp:122-144 | Two lines of at most 23; the break is at the last usable space; only spaces are dropped between the lines, and the second line is the next 23 characters or all that is left |
| `DisplayText.GlyphTable` | firmware/src/pipa_display_text.cpp:46-81 | Lower case is shown as upper case, the Spanish accented letters without accents, line breaks as spaces, other printable ASCII unchanged, everything else as a question mark |
| `DisplayText.NormalizedKeeps` | firmware/src/pipa_display_text.cpp:89-120 | Only spaces at the ends are cut off the first 96 glyphs |
| `LineReader.Reader.ReadTransport` | firmware/src/pipa_protocol.cpp:107-126 | However the bytes are split over polls, the lines handled are those of the batch specification on the whole stream |
| `LineReader.Reader.ReadCharacter` | firmware/src/pipa_secure_protocol.cpp:124-143 | One byte keeps buffer and overflow flag equal to what the stream so far says |
| `LineReader.OneMore` | firmware/src/pipa_protocol.cpp:107-126 | How one more byte changes the batch result |
| `LineReader.LinesOnlyGrow` | firmware/src/pipa_protocol.cpp:107-126 | Later bytes never change lines already complete |
| `LineReader.SplitIsFaithful` | firmware/src/pipa_protocol.cpp:111-116 | The batch split joined again is the stream, and no line holds a line feed |
| `LineReader.KeptExactly` | firmware/src/pipa_protocol.cpp:107-126 | The lines handled are exactly the complete ones of 1 to 12000 characters, in their order |
| `ReplayCache.SecureSessionServer.AcceptClientHello` | windows-agent/secure_session_server.py:138-162 | A hello is accepted if and only if its device is paired, its signature is good, and its id was not accepted within the last 1800 s and among the last 4096 acceptances; every refusal has its own exact condition |
| `ReplayCache.JudgedExactly` | windows-agent/secure_session_server.py:138-162 | The same of every hello of every run of calls, in terms of the earlier acceptances alone |
| `ReplayCache.AcceptedWereProved` | windows-agent/secure_session_server.py:138-162 | Over every run, whatever was accepted was paired and signed and replayed nothing recent |
| `ReplayCache.LiveExactly` | windows-agent/secure_session_server.py:146-153 | After pruning the cache holds an id if and only if it was accepted within 1800 s and among the last 4096 acceptances |
| `ReplayCache.RunKeeps` | windows-agent/secure_session_server.py:146-161 | Over every run the cache is a suffix of the acceptances with the rest old or crowded out, and two acceptances of one id are far apart |
| `ReplayCache.SecureSessionServer.PopExpired` | windows-agent/secure_session_server.py:146-151 | The front loop computes the pruned cache |
| `ReplayCache.PrunedIsFilter` | windows-agent/secure_session_server.py:146-151 | On the time-sorted cache, popping from the front is filtering the whole cache by age |
| `ReplayCache.PruneKeeps` | windows-agent/secure_session_server.py:146-151 | Expiry keeps the cache a suffix of everything accepted, with the rest old or crowded out |
| `ReplayCache.RememberKeeps` | windows-agent/secure_session_server.py:159-161 | So does insertion with first-in-first-out eviction |
| `ReplayCache.ApartOneMore` | windows-agent/secure_session_server.py:152-161 | Two acceptances of one id are 1800 s apart or have 4096 pairwise different other ids between them |
| `TrustedRuns.ChallengeIsAcceptedOnce` | windows-agent/trusted_unlock_protocol.py:295-349 | Over every run and any clock readings, forwards or backwards: a challenge is accepted at most once, despite pruning and eviction |
| `TrustedOutcomes.AcceptedExactly` | windows-agent/trusted_unlock_protocol.py:295-349 | In every reachable state a response is accepted if and only if its challenge was created, not accepted since and not found expired by an earlier call, is unexpired and issued no more than the skew in the future, the device it names is the challenge's and registered, and the signature covers that challenge under the device's current key |
| `TrustedOutcomes.CreatedExactly` | windows-agent/trusted_unlock_protocol.py:261-293 | In every reachable state a challenge is created if and only if device and operation are identifiers, the device is registered, the lifetime is 1 to 60 s, and fewer than 256 unexpired challenges are pending, fewer than 8 of them the device's; what the challenge then says |
| `TrustedOutcomes.RedeemedExactly` | windows-agent/trusted_unlock_ticket.py:95-127 | In every reachable state a ticket is redeemed if and only if it was issued, not redeemed since and not found expired by an earlier call, is unexpired, and the operation asked for is its own, which is unlock; the refusals of a held ticket have their own exact conditions |
| `TrustedOutcomes.IssuedExactly` | windows-agent/trusted_unlock_ticket.py:63-93 | In every reachable state an authorization is exchanged for a ticket if and only if it is for unlocking, the lifetime is 1 to 10 s and it is unexpired; the ticket is its device's, outlives neither, and can then be redeemed |
| `TrustedOutcomes.StepKeepsTables` | windows-agent/trusted_unlock_protocol.py:295-362 | Every step keeps: the pending tables hold exactly the challenges and tickets that the log says are still waiting |
| `TrustedRuns.ReplayIsRefused` | windows-agent/trusted_unlock_protocol.py:302-321 | Once accepted, a challenge is refused at every later moment and every clock reading |
| `TrustedRuns.SessionsOwnTheirChallenge` | backend/pipa_core/core.py:271-292 | Different session ids handed out by authentication belong to different accepted challenges |
| `SessionOrigins.V1SessionsWereProved` | backend/pipa_core/core.py:271-292 | Over every run of core, verifier and issuer together: every v1 session the core ever opened was opened on an accepted challenge of its own device, verified with the key registered for it at that moment |
| `SessionOrigins.V1SessionsHaveTheirOwnChallenge` | backend/pipa_core/core.py:271-292 | Two v1 sessions of the core never share a challenge, and one session never has two |
| `SessionOrigins.AuthenticationOpensExactly` | backend/pipa_core/core.py:271-292 | In every reachable state an authentication opens a session if and only if the response answers a waiting challenge and the registry has room for its device; it is then an initialized session of that device |
| `SessionOrigins.StepKeepsInv` | backend/pipa_core/core.py:271-292 | Authentication prunes, verifies and opens in that order, and every step keeps the match between sessions and acceptances |
| `TrustedRuns.RedeemedTicketsHaveAChain` | windows-agent/trusted_unlock_ticket.py:63-127 | A redeemed ticket comes from one accepted challenge of the same device and of the operation that was asked for, before that challenge expires (at most 60 s after issue) and within 10 s of the ticket |
| `TrustedRuns.TicketIsRedeemedOnce` | windows-agent/trusted_unlock_ticket.py:95-127 | No token is redeemed twice, even after its mark was evicted |
| `TrustedRuns.StepKeepsInv` | windows-agent/trusted_unlock_protocol.py:222-362 | Every step of registration, challenges, tickets and sessions keeps the invariant |
| `TrustedRuns.StepKeepsBounds` | windows-agent/trusted_unlock_protocol.py:284-291 | At most 256 pending challenges, 8 per device, and 4096 marks in each consumed table |
| `TrustedUnlock.AuthorizationVerifier.CreateChallenge` | windows-agent/trusted_unlock_protocol.py:261-293 | New tables and result of one challenge request |
| `TrustedUnlock.AuthorizationVerifier.VerifyResponse` | windows-agent/trusted_unlock_protocol.py:295-349 | New tables and result of one response, with every refusal in order |
| `TrustedUnlock.AuthorizationVerifier.Prune` | windows-agent/trusted_unlock_protocol.py:351-362 | Removes exactly what expired from both tables |
| `TrustedUnlock.TicketIssuer.Issue` | windows-agent/trusted_unlock_ticket.py:63-93 | New table and ticket, whose life is cut at the authorization's |
| `TrustedUnlock.TicketIssuer.Consume` | windows-agent/trusted_unlock_ticket.py:95-126 | New tables and result of one redemption, as the function does of which `TrustedOutcomes.RedeemedExactly` is proved |

## Left out

- AudioBridge.SecureAudioCommandBridge: the source's consumer, transcriber and bridge are three objects, of which the consumer calls back into the transcriber; they are one class here with the fields of all three, so sharing one consumer between two transcribers is not captured. The zeroing of the consumer's buffer after the callback is not modelled, because nothing outside can see that buffer.
- AudioStreams.DeliveredIsPrefixOfOneStream: assumes that a stream id is taken again only when its earlier senders are finished or cancelled; the code does not enforce it, and the property is false without it (see Findings).
- AudioCommands.DispatchesOneSender: the same assumption about stream ids.
- AudioCommands.DispatchesAreEarned: assumes that nothing but the bridge uses its receiver or opens its gate.
- AudioStreams.ReuseMixesExactly: is about sessions on which everything sealed was opened and 66 sequence numbers are left; on others the receiver first has to open what is under way.
- AudioStreams.DeliversExactlyTheNext: is about a frame that reaches the receiver; nothing is claimed about a network that never delivers it.
- ConfirmationGate.AskedIsShownAndRun: is about the request and the answer that reach the other side in time; nothing is claimed about lines that are lost.
- ConfirmationGate.ConfirmedRunsWereShown: the part about the screen is for sessions of modelled devices; other clients (a phone, a simulator) have no screen here. On v1 sessions it rests on the two lines that are assumed not to be forged.
- SecureGate.HostHearsExactly: the three unreadable messages in a row after which the host closes the connection, and its check that the device is still paired, are not counted or made here; closing is a step that may happen at any moment.
- SecureGate.SecureRunsWereShown: v1 sessions beside the v2 ones keep those two assumptions; what a decrypted payload says is a parameter, so the JSON of control records is not part of this model.
- SessionOrigins.V1SessionsWereProved: an authentication that fails is a call that only prunes; its error reply is not modelled.
- Firmware.PipaProtocol.ServerTimedOut: millisecond timers are not modelled, so a time-out may happen at any moment; no claim is made that a v1 handshake ever completes.
- TrustedUnlock.AuthorizationVerifier.VerifyResponse: a malformed signature and a wrong one are the same case, as they are the same error in the code.
- Captions, telemetry fields, tool results and the text of error messages: they take part in no decision that is modelled.
- Registration of tools: it ends before the core serves anyone.
- Re-entrant calls from inside a callback, and threads interleaving inside one call.
- The regular expressions of the intent parser, the catalog and capability validators, the memory store: their outcome is a parameter.
- The handshake's own steps (Ed25519, X25519, HKDF, SHA-256): only the texts they sign and the keys they yield are modelled.
- Arduino's and C's null pointers, except in the JSON entry point and the text validator, which test for them.
- HTTP and WebSocket servers, gateways, named pipes, control panel, drivers: input and output.
- The trusted-unlock broker and credential provider: a constant disables them.

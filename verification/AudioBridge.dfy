/**
 * From an audio stream to one command (windows-agent/secure_audio.py): the capture gate, the consumer, the
 * transcriber and the command bridge.
 *
 * Callbacks are parameters: what the transcription provider answers, whether its reset and the dispatcher
 * return or raise. The events say when a callback was called and with what.
 */
module AudioBridge {
  import opened Prelude
  import opened Utf8
  import opened RecordLayer
  import opened SecureAudio

  const MAX_TRANSCRIPT_BYTES := 4000

  // ----- State -----

  datatype Capture = Disabled | CodecReady | Listening | Draining | Errored

  datatype ConsumerState = ConsumerState(closed: bool, finished: bool, hasCallback: bool)

  datatype TranscriberState = TranscriberState(
    transcript: Option<string>,
    hasProvider: bool,
    hasReset: bool,
    providerClosed: bool,
    finalized: bool)

  datatype BridgeState = BridgeState(attached: bool, hasDispatch: bool, dispatched: bool)

  /** Everything between the session and the dispatcher. */
  datatype Stack = Stack(
    end: End,
    receiver: ReceiverState,
    gate: Capture,
    consumer: ConsumerState,
    transcriber: TranscriberState,
    bridge: BridgeState)

  /** An `AudioFrameError`, or a value. */
  datatype Reply<+T> = Raised | Returned(value: T)

  /** What the provider did with one chunk. */
  datatype Answer = ProviderRaised | Nothing | NotText | Text(value: string)

  datatype Summary = Summary(streamBytes: nat, streamDurationMs: nat)

  datatype AudioEvent =
    | Begun(displayReady: bool, consented: bool, secureTransport: bool)
    | Heard(samples: bytes, final: bool, answer: Answer)
    | Forgot
    | Dispatched(text: string)

  // ----- Transcripts -----

  predicate BoundedText(text: string) {
    && !Blank(text) && |Encode(text)| <= MAX_TRANSCRIPT_BYTES
    && forall c :: c in text ==> !Banned(c) && !(0xE000 <= c as int <= 0xF8FF)
  }

  function StripLeft(text: string): string {
    if text != "" && IsSpace(text[0]) then StripLeft(text[1..]) else text
  }

  function StripRight(text: string): string {
    if text != "" && IsSpace(text[|text| - 1]) then StripRight(text[..|text| - 1]) else text
  }

  function Strip(text: string): string {
    StripRight(StripLeft(text))
  }

  // ----- What each operation does -----

  function ConsumerClosed(s: Stack): Stack {
    if s.consumer.closed then s
    else s.(end := s.end.(closed := true), receiver := EMPTY, gate := Errored, consumer := ConsumerState(true, false, false))
  }

  function TranscriberClosed(s: Stack): Stack {
    if s.transcriber.providerClosed then s
    else ConsumerClosed(s.(transcriber := TranscriberState(None, false, false, true, false)))
  }

  predicate TranscriberIsClosed(s: Stack) {
    s.transcriber.providerClosed || s.consumer.closed
  }

  function BridgeClosed(s: Stack): Stack {
    var after := s.(bridge := BridgeState(false, false, s.bridge.dispatched));
    if s.bridge.attached then TranscriberClosed(after) else after
  }

  /** `_require_transcriber` succeeds. */
  predicate Available(s: Stack) {
    s.bridge.attached && !TranscriberIsClosed(s)
  }

  function BeginIn(s: Stack, displayReady: bool, consented: bool, secureTransport: bool): (Stack, Reply<()>, seq<AudioEvent>) {
    if !Available(s) then (BridgeClosed(s), Raised, [])
    else if s.gate != CodecReady || !displayReady || !consented || !secureTransport then (s, Raised, [])
    else (s.(gate := Listening), Returned(()), [Begun(displayReady, consented, secureTransport)])
  }

  /** `_consume_chunk`: no state means that it raises. */
  function Transcribe(t: TranscriberState, final: bool, answer: Answer): Option<TranscriberState> {
    if t.transcript.Some? || !t.hasProvider || answer.ProviderRaised? then None
    else if !final then if answer.Nothing? then Some(t) else None
    else match answer
      case Nothing => Some(t)
      case Text(value) => if BoundedText(value) then Some(t.(transcript := Some(Strip(value)))) else None
      case _ => None
  }

  /** The callback with one opened chunk, and what follows it. */
  function DeliverIn(s: Stack, samples: bytes, answer: Answer): (Stack, Reply<bool>, seq<AudioEvent>) {
    if !s.consumer.hasCallback then (ConsumerClosed(s), Raised, [])
    else
      var final := s.receiver.finished;
      var called := s.transcriber.transcript.None? && s.transcriber.hasProvider;
      var events := if called then [Heard(samples, final, answer)] else [];
      match Transcribe(s.transcriber, final, answer)
      case None => (ConsumerClosed(s), Raised, events)
      case Some(transcriber) =>
        (s.(transcriber := transcriber, consumer := s.consumer.(finished := final)), Returned(final), events)
  }

  function ConsumeIn(s: Stack, frame: AudioFrame, answer: Answer): (Stack, Reply<bool>, seq<AudioEvent>) {
    if !Available(s) then (BridgeClosed(s), Raised, [])
    else if s.consumer.finished || s.gate != Listening then (ConsumerClosed(s), Raised, [])
    else
      var (end, receiver, samples) := OpenChunkIn(s.end, s.receiver, frame);
      var tried := s.(end := end, receiver := receiver);
      if samples.Failure? then
        (tried.(gate := Errored, consumer := s.consumer.(closed := true, hasCallback := false)), Raised, [])
      else DeliverIn(tried, samples.value, answer)
  }

  /** `SecureAudioConsumer.finalize`. */
  function ConsumerFinalized(s: Stack): (Stack, Reply<Summary>) {
    if s.consumer.closed || !s.consumer.finished || !s.receiver.finished || s.gate != Listening then (ConsumerClosed(s), Raised)
    else (s.(gate := CodecReady), Returned(Summary(s.receiver.streamBytes, DurationMs(s.receiver.streamBytes))))
  }

  /** `SecureAudioTranscriber.finalize`. */
  function TranscriberFinalized(s: Stack): (Stack, Reply<Summary>) {
    var (after, summary) := ConsumerFinalized(s);
    if summary.Raised? then (after, Raised)
    else if s.transcriber.transcript.None? then (TranscriberClosed(after), Raised)
    else (after.(transcriber := s.transcriber.(finalized := true)), summary)
  }

  function FinalizeIn(s: Stack, dispatchReturns: bool): (Stack, Reply<Summary>, seq<AudioEvent>) {
    if s.bridge.dispatched then (s, Raised, [])
    else if !Available(s) then (BridgeClosed(s), Raised, [])
    else
      var (after, summary) := TranscriberFinalized(s);
      if summary.Raised? || !s.bridge.hasDispatch then (BridgeClosed(after), Raised, [])
      else
        var events := [Dispatched(s.transcriber.transcript.value)];
        if !dispatchReturns then (BridgeClosed(after), Raised, events)
        else (BridgeClosed(after.(bridge := s.bridge.(dispatched := true))), summary, events)
  }

  /** `SecureAudioConsumer.cancel`, on an open consumer. */
  function ConsumerCancelled(s: Stack): Stack {
    s.(receiver := EMPTY, gate := if s.gate == Listening then CodecReady else s.gate, consumer := s.consumer.(finished := false))
  }

  function CancelIn(s: Stack, resetReturns: bool): (Stack, Reply<()>, seq<AudioEvent>) {
    if !s.bridge.attached then (s, Returned(()), [])
    else if TranscriberIsClosed(s) then (s.(bridge := s.bridge.(dispatched := false)), Returned(()), [])
    else
      var after := ConsumerCancelled(s);
      if s.transcriber.hasReset && !resetReturns then (TranscriberClosed(after), Raised, [Forgot])
      else
        (after.(transcriber := s.transcriber.(transcript := None, finalized := false), bridge := s.bridge.(dispatched := false)),
         Returned(()), [Forgot])
  }

  function MarkedReady(gate: Capture, codecInitialized: bool): Capture {
    if gate != Disabled && gate != Errored then gate
    else if codecInitialized then CodecReady
    else Errored
  }

  // ----- One life of a bridge -----

  datatype Operation =
    | MarkReady(codecInitialized: bool)
    | FailGate
    | Begin(displayReady: bool, consented: bool, secureTransport: bool)
    | Consume(frame: AudioFrame, answer: Answer)
    | Finalize(dispatchReturns: bool)
    | Cancel(resetReturns: bool)
    | CloseBridge

  function Operate(s: Stack, op: Operation): (Stack, seq<AudioEvent>) {
    match op
    case MarkReady(initialized) => (s.(gate := MarkedReady(s.gate, initialized)), [])
    case FailGate => (s.(gate := Errored), [])
    case Begin(d, c, t) => var (after, _, events) := BeginIn(s, d, c, t); (after, events)
    case Consume(frame, answer) => var (after, _, events) := ConsumeIn(s, frame, answer); (after, events)
    case Finalize(ok) => var (after, _, events) := FinalizeIn(s, ok); (after, events)
    case Cancel(ok) => var (after, _, events) := CancelIn(s, ok); (after, events)
    case CloseBridge => (BridgeClosed(s), [])
  }

  /** Between two operations everything but the bridge's own three fields may change in any way. */
  predicate Life(stacks: seq<Stack>, operations: seq<Operation>) {
    && |stacks| == |operations| + 1
    && forall i :: 0 <= i < |operations| ==> stacks[i + 1].bridge == Operate(stacks[i], operations[i]).0.bridge
  }

  predicate Dispatches(s: Stack, op: Operation) {
    exists e :: e in Operate(s, op).1 && e.Dispatched?
  }

  /** One operation logs at most one event; it dispatches only while attached, and is detached afterwards for good. */
  lemma DispatchDetaches(s: Stack, op: Operation)
    ensures |Operate(s, op).1| <= 1
    ensures Dispatches(s, op) ==> s.bridge.attached && !Operate(s, op).0.bridge.attached
    ensures !s.bridge.attached ==> !Operate(s, op).0.bridge.attached
  {
    hide OpenChunkIn, BoundedText, Strip;
  }

  lemma {:induction false} StaysDetached(stacks: seq<Stack>, operations: seq<Operation>, i: nat, j: nat)
    requires Life(stacks, operations) && i <= j <= |operations| && !stacks[i].bridge.attached
    ensures !stacks[j].bridge.attached
  {
    hide Operate;
    if i < j {
      StaysDetached(stacks, operations, i, j - 1);
      DispatchDetaches(stacks[j - 1], operations[j - 1]);
    }
  }

  /**
   * A bridge dispatches at most once in its life, whatever is called on it and in whatever order, and whatever else
   * happens meanwhile to the session, the receiver, the gate, the consumer and the transcriber.
   */
  lemma DispatchedOnce(stacks: seq<Stack>, operations: seq<Operation>, i: nat, j: nat)
    requires Life(stacks, operations) && i < |operations| && j < |operations|
    requires Dispatches(stacks[i], operations[i]) && Dispatches(stacks[j], operations[j])
    ensures i == j
  {
    hide Operate, Dispatches;
    DispatchDetaches(stacks[i], operations[i]);
    DispatchDetaches(stacks[j], operations[j]);
    if i < j {
      StaysDetached(stacks, operations, i + 1, j);
    } else if j < i {
      StaysDetached(stacks, operations, j + 1, i);
    }
  }

  // ----- The classes -----

  class AudioCaptureGate {
    var state: Capture

    constructor ()
      ensures state == Disabled
    {
      state := Disabled;
    }

    method MarkCodecReady(codecInitialized: bool) returns (ok: bool)
      modifies this
      ensures state == MarkedReady(old(state), codecInitialized)
      ensures ok <==> (old(state) == Disabled || old(state) == Errored) && codecInitialized
      ensures state == if ok then CodecReady else if old(state) == Disabled then Errored else old(state)
    {
      if state != Disabled && state != Errored {
        return false;
      }
      if !codecInitialized {
        state := Errored;
        return false;
      }
      state := CodecReady;
      ok := true;
    }

    method BeginListening(displayReady: bool, consented: bool, secureTransport: bool) returns (ok: bool)
      modifies this
      ensures ok <==> old(state) == CodecReady && displayReady && consented && secureTransport
      ensures state == if ok then Listening else old(state)
    {
      if state != CodecReady || !displayReady || !consented || !secureTransport {
        return false;
      }
      state := Listening;
      ok := true;
    }

    method BeginDraining() returns (ok: bool)
      modifies this
      ensures ok <==> old(state) == Listening
      ensures state == if ok then Draining else old(state)
    {
      if state != Listening {
        return false;
      }
      state := Draining;
      ok := true;
    }

    method FinishDraining() returns (ok: bool)
      modifies this
      ensures ok <==> old(state) == Draining
      ensures state == if ok then CodecReady else old(state)
    {
      if state != Draining {
        return false;
      }
      state := CodecReady;
      ok := true;
    }

    method Fail()
      modifies this
      ensures state == Errored
    {
      state := Errored;
    }
  }

  /** `SecureAudioCommandBridge` with the transcriber and the consumer it drives. */
  class SecureAudioCommandBridge {
    const receiver: SecureAudioReceiver
    const gate: AudioCaptureGate

    // SecureAudioConsumer
    var consumerClosed: bool
    var consumerFinished: bool
    var hasCallback: bool

    // SecureAudioTranscriber
    var transcript: Option<string>
    var hasProvider: bool
    var hasReset: bool
    var providerClosed: bool
    var finalized: bool

    // SecureAudioCommandBridge
    var attached: bool
    var hasDispatch: bool
    var wasDispatched: bool

    ghost function View(): Stack
      reads this, receiver, receiver.session, gate
    {
      Stack(receiver.session.View(), receiver.View(), gate.state,
            ConsumerState(consumerClosed, consumerFinished, hasCallback),
            TranscriberState(transcript, hasProvider, hasReset, providerClosed, finalized),
            BridgeState(attached, hasDispatch, wasDispatched))
    }

    constructor (receiver: SecureAudioReceiver, gate: AudioCaptureGate, hasReset: bool)
      ensures this.receiver == receiver && this.gate == gate
      ensures View() == Stack(receiver.session.View(), receiver.View(), gate.state, ConsumerState(false, false, true),
                              TranscriberState(None, true, hasReset, false, false), BridgeState(true, true, false))
    {
      this.receiver := receiver;
      this.gate := gate;
      this.consumerClosed, this.consumerFinished, this.hasCallback := false, false, true;
      this.transcript, this.hasProvider, this.hasReset := None, true, hasReset;
      this.providerClosed, this.finalized := false, false;
      this.attached, this.hasDispatch, this.wasDispatched := true, true, false;
    }

    // ----- Consumer -----

    method CloseConsumer()
      modifies this`consumerClosed, this`consumerFinished, this`hasCallback, receiver, receiver.session`closed, gate
      ensures View() == ConsumerClosed(old(View()))
    {
      if consumerClosed {
        return;
      }
      receiver.Close();
      gate.Fail();
      consumerClosed, consumerFinished, hasCallback := true, false, false;
    }

    method ConsumeFrame(frame: AudioFrame, answer: Answer) returns (reply: Reply<bool>, ghost events: seq<AudioEvent>)
      modifies this, receiver, receiver.session, gate
      ensures (View(), reply, events) == ConsumeIn(old(View()), frame, answer)
    {
      hide OpenChunkIn, BridgeClosed, DeliverIn;
      events := [];
      var available := RequireTranscriber();
      if !available {
        return Raised, [];
      }
      if consumerFinished || gate.state != Listening {
        CloseConsumer();
        return Raised, [];
      }
      var samples := receiver.OpenChunk(frame);
      if samples.Failure? {
        gate.Fail();
        consumerClosed, hasCallback := true, false;
        return Raised, [];
      }
      reply, events := Deliver(samples.value, answer);
    }

    method Deliver(samples: bytes, answer: Answer) returns (reply: Reply<bool>, ghost events: seq<AudioEvent>)
      modifies this, receiver, receiver.session`closed, gate
      ensures (View(), reply, events) == DeliverIn(old(View()), samples, answer)
    {
      hide BoundedText, Strip;
      var final := receiver.finished;
      if !hasCallback {
        CloseConsumer();
        return Raised, [];
      }
      var ok;
      ok, events := ConsumeChunk(samples, final, answer);
      if !ok {
        CloseConsumer();
        return Raised, events;
      }
      consumerFinished := final;
      reply := Returned(final);
    }

    // ----- Transcriber -----

    /** The consumer's callback. */
    method ConsumeChunk(samples: bytes, final: bool, answer: Answer) returns (ok: bool, ghost events: seq<AudioEvent>)
      modifies this`transcript
      ensures var before := old(TranscriberState(transcript, hasProvider, hasReset, providerClosed, finalized));
              && ok == Transcribe(before, final, answer).Some?
              && (ok ==> transcript == Transcribe(before, final, answer).value.transcript)
              && (!ok ==> transcript == old(transcript))
              && events == if before.transcript.None? && hasProvider then [Heard(samples, final, answer)] else []
    {
      if transcript.Some? || !hasProvider {
        return false, [];
      }
      events := [Heard(samples, final, answer)];
      if answer.ProviderRaised? {
        return false, events;
      }
      if !final {
        return answer.Nothing?, events;
      }
      match answer {
        case Nothing => ok := true;
        case Text(value) =>
          ok := BoundedText(value);
          if ok {
            transcript := Some(Strip(value));
          }
        case _ => ok := false;
      }
    }

    method CloseTranscriber()
      modifies this, receiver, receiver.session`closed, gate
      ensures View() == TranscriberClosed(old(View()))
    {
      if providerClosed {
        return;
      }
      providerClosed, hasProvider, hasReset, transcript, finalized := true, false, false, None, false;
      CloseConsumer();
    }

    method FinalizeTranscriber() returns (summary: Reply<Summary>)
      modifies this, receiver, receiver.session`closed, gate
      ensures (View(), summary) == TranscriberFinalized(old(View()))
    {
      if consumerClosed || !consumerFinished || !receiver.finished {
        CloseConsumer();
        return Raised;
      }
      var began := gate.BeginDraining();
      var drained := began;
      if began {
        drained := gate.FinishDraining();
      }
      if !drained {
        CloseConsumer();
        return Raised;
      }
      summary := Returned(Summary(receiver.streamBytes, DurationMs(receiver.streamBytes)));
      if transcript.None? {
        CloseTranscriber();
        return Raised;
      }
      finalized := true;
    }

    // ----- Bridge -----

    method Close()
      modifies this, receiver, receiver.session`closed, gate
      ensures View() == BridgeClosed(old(View()))
    {
      var had := attached;
      attached, hasDispatch := false, false;
      if had {
        CloseTranscriber();
      }
    }

    method RequireTranscriber() returns (available: bool)
      modifies this, receiver, receiver.session`closed, gate
      ensures available == Available(old(View()))
      ensures View() == if available then old(View()) else BridgeClosed(old(View()))
    {
      if !attached || providerClosed || consumerClosed {
        Close();
        return false;
      }
      available := true;
    }

    method BeginCapture(displayReady: bool, consented: bool, secureTransport: bool)
      returns (reply: Reply<()>, ghost events: seq<AudioEvent>)
      modifies this, receiver, receiver.session`closed, gate
      ensures (View(), reply, events) == BeginIn(old(View()), displayReady, consented, secureTransport)
    {
      var available := RequireTranscriber();
      if !available {
        return Raised, [];
      }
      var listening := gate.BeginListening(displayReady, consented, secureTransport);
      if !listening {
        return Raised, [];
      }
      return Returned(()), [Begun(displayReady, consented, secureTransport)];
    }

    method Finalize(dispatchReturns: bool) returns (reply: Reply<Summary>, ghost events: seq<AudioEvent>)
      modifies this, receiver, receiver.session`closed, gate
      ensures (View(), reply, events) == FinalizeIn(old(View()), dispatchReturns)
    {
      if wasDispatched {
        return Raised, [];
      }
      var available := RequireTranscriber();
      if !available {
        return Raised, [];
      }
      reply := FinalizeTranscriber();
      if reply.Raised? {
        Close();
        return Raised, [];
      }
      var text := if finalized then transcript else None;
      if text.None? || !hasDispatch {
        Close();
        return Raised, [];
      }
      events := [Dispatched(text.value)];
      if !dispatchReturns {
        Close();
        return Raised, events;
      }
      wasDispatched := true;
      Close();
    }

    method Cancel(resetReturns: bool) returns (reply: Reply<()>, ghost events: seq<AudioEvent>)
      modifies this, receiver, receiver.session`closed, gate
      ensures (View(), reply, events) == CancelIn(old(View()), resetReturns)
    {
      events := [];
      if !attached {
        return Returned(()), [];
      }
      if !providerClosed && !consumerClosed {
        events := [Forgot];
        receiver.Cancel();
        if gate.state == Listening {
          var began := gate.BeginDraining();
          var drained := gate.FinishDraining();
        }
        consumerFinished := false;
        if hasReset && !resetReturns {
          CloseTranscriber();
          return Raised, events;
        }
        transcript, finalized := None, false;
      }
      wasDispatched := false;
      reply := Returned(());
    }
  }
}

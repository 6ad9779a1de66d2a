/**
 * Encrypted audio streams over the record layer (windows-agent/secure_audio.py).
 */
module SecureAudio {
  import opened Prelude
  import opened Framing
  import opened RecordLayer

  const AUDIO_PROTOCOL_VERSION := 2
  const AUDIO_SAMPLE_RATE := 16000
  const AUDIO_CHANNELS := 1
  const AUDIO_BITS_PER_SAMPLE := 16
  const AUDIO_BYTES_PER_SAMPLE := 2
  const MAX_AUDIO_CHUNK_BYTES := 4096
  const MAX_AUDIO_CHUNKS := 64
  const MAX_AUDIO_STREAM_BYTES := 262144
  const MAX_AUDIO_STREAM_DURATION_MS := 8192
  const MAX_AUDIO_STREAM_ID_LENGTH := 64

  // ----- Frames -----

  datatype Metadata = Metadata(streamId: string, index: nat, final: bool)

  /** The metadata of a received frame; a field that is missing or of the wrong type is `None`. */
  datatype RawMetadata = RawMetadata(version: Option<int>, bits: Option<int>, channels: Option<int>, index: Option<int>,
                                     final: Option<bool>, rate: Option<int>, streamId: Option<string>)

  datatype AudioFrame = AudioFrame(exactFields: bool, metadata: RawMetadata, record: Frame)

  datatype AudioError =
    | AlreadyFinished | TooManyChunks | BadSamples | StreamTooLarge | MustFinish | SessionRefused(error: RecordError)
    | BadFields | BadMetadata | NotAtZero | StreamChanged | OutOfOrder | NotAuthenticated

  function Validated(raw: RawMetadata): Option<Metadata> {
    if && raw.version == Some(AUDIO_PROTOCOL_VERSION)
       && raw.streamId.Some? && Identifier(raw.streamId.value, MAX_AUDIO_STREAM_ID_LENGTH)
       && raw.index.Some? && 0 <= raw.index.value < MAX_AUDIO_CHUNKS
       && raw.final.Some?
       && !(raw.index.value == MAX_AUDIO_CHUNKS - 1 && !raw.final.value)
       && raw.rate == Some(AUDIO_SAMPLE_RATE) && raw.channels == Some(AUDIO_CHANNELS) && raw.bits == Some(AUDIO_BITS_PER_SAMPLE)
    then Some(Metadata(raw.streamId.value, raw.index.value, raw.final.value))
    else None
  }

  function RawOf(m: Metadata): RawMetadata {
    RawMetadata(Some(AUDIO_PROTOCOL_VERSION), Some(AUDIO_BITS_PER_SAMPLE), Some(AUDIO_CHANNELS), Some(m.index),
                Some(m.final), Some(AUDIO_SAMPLE_RATE), Some(m.streamId))
  }

  function Aad(m: Metadata): Octets {
    AudioAad(m.streamId, m.index, m.final)
  }

  predicate GoodSamples(samples: bytes) {
    0 < |samples| <= MAX_AUDIO_CHUNK_BYTES && |samples| % AUDIO_BYTES_PER_SAMPLE == 0
  }

  function DurationMs(streamBytes: nat): nat {
    streamBytes * 1000 / (AUDIO_SAMPLE_RATE * AUDIO_CHANNELS * AUDIO_BYTES_PER_SAMPLE)
  }

  // ----- Sender -----

  datatype SenderState = SenderState(streamId: string, nextChunk: nat, streamBytes: nat, finished: bool)

  function SealChunkIn(end: End, s: SenderState, samples: bytes, final: bool)
    : (End, SenderState, Result<AudioFrame, AudioError>)
  {
    if s.finished then (end, s, Failure(AlreadyFinished))
    else if s.nextChunk >= MAX_AUDIO_CHUNKS then (end, s, Failure(TooManyChunks))
    else if !GoodSamples(samples) then (end, s, Failure(BadSamples))
    else if s.streamBytes + |samples| > MAX_AUDIO_STREAM_BYTES then (end, s, Failure(StreamTooLarge))
    else if s.nextChunk == MAX_AUDIO_CHUNKS - 1 && !final then (end, s, Failure(MustFinish))
    else
      var m := Metadata(s.streamId, s.nextChunk, final);
      var (after, r) := SealIn(end, samples, Aad(m));
      if r.Failure? then (after, s, Failure(SessionRefused(r.error)))
      else (after, SenderState(s.streamId, s.nextChunk + 1, s.streamBytes + |samples|, final),
            Success(AudioFrame(true, RawOf(m), r.value)))
  }

  function CancelledSender(s: SenderState): SenderState {
    SenderState(s.streamId, 0, 0, true)
  }

  /** What every reachable sender satisfies: only a finished stream may have used all 64 chunks. */
  predicate SenderBounds(s: SenderState) {
    && s.streamBytes <= MAX_AUDIO_CHUNK_BYTES * s.nextChunk
    && s.nextChunk <= (if s.finished then MAX_AUDIO_CHUNKS else MAX_AUDIO_CHUNKS - 1)
  }

  /** Two of the sender's guards never fire, and its 64th chunk is always the final one. */
  lemma SenderStaysInBounds(end: End, s: SenderState, samples: bytes, final: bool)
    requires SenderBounds(s)
    ensures var (_, after, r) := SealChunkIn(end, s, samples, final);
            && SenderBounds(after) && r != Failure(TooManyChunks) && r != Failure(StreamTooLarge)
            && (after.nextChunk == MAX_AUDIO_CHUNKS ==> after.finished)
            && DurationMs(after.streamBytes) <= MAX_AUDIO_STREAM_DURATION_MS
  {
    hide SealIn, AudioAad;
    assert s.finished ==> DurationMs(s.streamBytes) <= MAX_AUDIO_STREAM_DURATION_MS;
  }

  class SecureAudioSender {
    const session: SecureSession
    const streamId: string
    var nextChunk: nat
    var streamBytes: nat
    var finished: bool

    ghost function View(): SenderState
      reads this
    {
      SenderState(streamId, nextChunk, streamBytes, finished)
    }

    constructor (session: SecureSession, streamId: string)
      requires Identifier(streamId, MAX_AUDIO_STREAM_ID_LENGTH)
      ensures this.session == session && View() == SenderState(streamId, 0, 0, false) && SenderBounds(View())
    {
      this.session := session;
      this.streamId := streamId;
      this.nextChunk := 0;
      this.streamBytes := 0;
      this.finished := false;
    }

    method SealChunk(samples: bytes, final: bool) returns (r: Result<AudioFrame, AudioError>)
      modifies this, session`sendSequence
      ensures (session.View(), View(), r) == SealChunkIn(old(session.View()), old(View()), samples, final)
      ensures old(SenderBounds(View())) ==> SenderBounds(View())
    {
      hide SealIn, AudioAad;
      if finished {
        return Failure(AlreadyFinished);
      }
      if nextChunk >= MAX_AUDIO_CHUNKS {
        return Failure(TooManyChunks);
      }
      if !GoodSamples(samples) {
        return Failure(BadSamples);
      }
      if streamBytes + |samples| > MAX_AUDIO_STREAM_BYTES {
        return Failure(StreamTooLarge);
      }
      if nextChunk == MAX_AUDIO_CHUNKS - 1 && !final {
        return Failure(MustFinish);
      }
      var metadata := Metadata(streamId, nextChunk, final);
      var sealedFrame := session.Seal(samples, Aad(metadata));
      if sealedFrame.Failure? {
        return Failure(SessionRefused(sealedFrame.error));
      }
      nextChunk := nextChunk + 1;
      streamBytes := streamBytes + |samples|;
      finished := final;
      r := Success(AudioFrame(true, RawOf(metadata), sealedFrame.value));
    }

    method Cancel()
      modifies this
      ensures View() == CancelledSender(old(View())) && SenderBounds(View())
    {
      finished := true;
      nextChunk := 0;
      streamBytes := 0;
    }
  }

  // ----- Receiver -----

  datatype ReceiverState = ReceiverState(streamId: Option<string>, nextChunk: nat, streamBytes: nat, finished: bool)

  const EMPTY := ReceiverState(None, 0, 0, false)

  /** Everything that is checked before the session is asked to open the record. */
  function Checked(r: ReceiverState, frame: AudioFrame): Result<Metadata, AudioError> {
    if !frame.exactFields then Failure(BadFields)
    else
      var m := Validated(frame.metadata);
      if m.None? then Failure(BadMetadata)
      else if r.finished then Failure(AlreadyFinished)
      else if r.streamId.None? && m.value.index != 0 then Failure(NotAtZero)
      else if r.streamId.Some? && m.value.streamId != r.streamId.value then Failure(StreamChanged)
      else if m.value.index != r.nextChunk then Failure(OutOfOrder)
      else Success(m.value)
  }

  /** Any failure closes the session and forgets the stream. */
  function OpenChunkIn(end: End, r: ReceiverState, frame: AudioFrame): (End, ReceiverState, Result<bytes, AudioError>) {
    var checked := Checked(r, frame);
    if checked.Failure? then (end.(closed := true), EMPTY, Failure(checked.error))
    else
      var m := checked.value;
      var (after, samples) := OpenIn(end, frame.record, Aad(m));
      if samples.Failure? then (after.(closed := true), EMPTY, Failure(NotAuthenticated))
      else if !GoodSamples(samples.value) then (after.(closed := true), EMPTY, Failure(BadSamples))
      else if r.streamBytes + |samples.value| > MAX_AUDIO_STREAM_BYTES then
        (after.(closed := true), EMPTY, Failure(StreamTooLarge))
      else
        (after, ReceiverState(Some(m.streamId), r.nextChunk + 1, r.streamBytes + |samples.value|, m.final), Success(samples.value))
  }

  predicate ReceiverBounds(r: ReceiverState) {
    && r.streamBytes <= MAX_AUDIO_CHUNK_BYTES * r.nextChunk
    && r.nextChunk <= (if r.finished then MAX_AUDIO_CHUNKS else MAX_AUDIO_CHUNKS - 1)
    && (r.streamId.None? ==> r.nextChunk == 0)
  }

  /** The receiver's stream-size guard never fires, and its 64th chunk is always the final one. */
  lemma ReceiverStaysInBounds(end: End, r: ReceiverState, frame: AudioFrame)
    requires ReceiverBounds(r)
    ensures var (_, after, samples) := OpenChunkIn(end, r, frame);
            && ReceiverBounds(after) && samples != Failure(StreamTooLarge)
            && (after.nextChunk == MAX_AUDIO_CHUNKS ==> after.finished)
            && DurationMs(after.streamBytes) <= MAX_AUDIO_STREAM_DURATION_MS
  {
    hide OpenIn, AudioAad, Identifier;
  }

  class SecureAudioReceiver {
    const session: SecureSession
    var streamId: Option<string>
    var nextChunk: nat
    var streamBytes: nat
    var finished: bool

    ghost function View(): ReceiverState
      reads this
    {
      ReceiverState(streamId, nextChunk, streamBytes, finished)
    }

    constructor (session: SecureSession)
      ensures this.session == session && View() == EMPTY && ReceiverBounds(View())
    {
      this.session := session;
      this.streamId := None;
      this.nextChunk := 0;
      this.streamBytes := 0;
      this.finished := false;
    }

    method OpenChunk(frame: AudioFrame) returns (samples: Result<bytes, AudioError>)
      modifies this, session
      ensures (session.View(), View(), samples) == OpenChunkIn(old(session.View()), old(View()), frame)
      ensures old(ReceiverBounds(View())) ==> ReceiverBounds(View())
    {
      hide OpenIn, AudioAad;
      if ReceiverBounds(View()) {
        ReceiverStaysInBounds(session.View(), View(), frame);
      }
      samples := TryOpen(frame);
      if samples.Failure? {
        DiscardState();
        session.Close();
      }
    }

    /** The `try` block: on failure the fields may be half updated. */
    method TryOpen(frame: AudioFrame) returns (samples: Result<bytes, AudioError>)
      modifies this, session`receiveSequence
      ensures var (end, after, r) := OpenChunkIn(old(session.View()), old(View()), frame);
              && samples == r && session.View() == (if r.Success? then end else end.(closed := old(session.closed)))
              && (r.Success? ==> View() == after)
    {
      hide OpenIn, AudioAad;
      if !frame.exactFields {
        return Failure(BadFields);
      }
      var metadata := Validated(frame.metadata);
      if metadata.None? {
        return Failure(BadMetadata);
      }
      if finished {
        return Failure(AlreadyFinished);
      }
      if streamId.None? {
        if metadata.value.index != 0 {
          return Failure(NotAtZero);
        }
        streamId := Some(metadata.value.streamId);
      } else if metadata.value.streamId != streamId.value {
        return Failure(StreamChanged);
      }
      if metadata.value.index != nextChunk {
        return Failure(OutOfOrder);
      }
      var plaintext := session.Open(frame.record, Aad(metadata.value));
      if plaintext.Failure? {
        return Failure(NotAuthenticated);
      }
      if !GoodSamples(plaintext.value) {
        return Failure(BadSamples);
      }
      if streamBytes + |plaintext.value| > MAX_AUDIO_STREAM_BYTES {
        return Failure(StreamTooLarge);
      }
      nextChunk := nextChunk + 1;
      streamBytes := streamBytes + |plaintext.value|;
      finished := metadata.value.final;
      samples := Success(plaintext.value);
    }

    method Cancel()
      modifies this
      ensures View() == EMPTY
    {
      DiscardState();
    }

    method Close()
      modifies this, session`closed
      ensures View() == EMPTY && session.View() == old(session.View()).(closed := true)
    {
      DiscardState();
      session.Close();
    }

    method DiscardState()
      modifies this
      ensures View() == EMPTY
    {
      streamId := None;
      nextChunk := 0;
      streamBytes := 0;
      finished := false;
    }
  }
}

/**
 * The firmware's audio sender and receiver (firmware/src/pipa_secure_audio.cpp).
 *
 * They are written independently of the Python ones and are proved to make the same decisions: a chunk is sealed or
 * delivered by one exactly when it would be by the other, so what `AudioStreams` proves holds for both.
 */
module FirmwareAudio {
  import opened Prelude
  import opened Framing
  import opened RecordLayer
  import opened SecureAudio

  const MAX_CIPHERTEXT: nat := MAX_AUDIO_CHUNK_BYTES + TAG_BYTES

  datatype DeviceFrame = DeviceFrame(
    sequence: nat,
    version: nat,
    bits: nat,
    channels: nat,
    index: nat,
    final: bool,
    rate: nat,
    streamId: string,
    ciphertext: Ciphertext)

  /** The same frame as the Python side sees it, on the session it was sent on. */
  function AsAudioFrame(f: DeviceFrame, sessionId: string): AudioFrame {
    AudioFrame(true,
      RawMetadata(Some(f.version), Some(f.bits), Some(f.channels), Some(f.index), Some(f.final), Some(f.rate), Some(f.streamId)),
      Frame(Some(SECURE_PROTOCOL_VERSION), Some(sessionId), Some(f.sequence), Some(f.ciphertext)))
  }

  method BuildAdditionalData(streamId: string, index: nat, final: bool, capacity: nat) returns (data: Option<Octets>)
    ensures data.Some? <==>
      && Identifier(streamId, MAX_AUDIO_STREAM_ID_LENGTH) && index < MAX_AUDIO_CHUNKS
      && (index == MAX_AUDIO_CHUNKS - 1 ==> final)
      && |AudioAad(streamId, index, final)| <= capacity && |AudioAad(streamId, index, final)| <= MAX_ADDITIONAL_DATA_BYTES
    ensures data.Some? ==> data.value == AudioAad(streamId, index, final)
  {
    if !Identifier(streamId, MAX_AUDIO_STREAM_ID_LENGTH) || index >= MAX_AUDIO_CHUNKS {
      return None;
    }
    if index == MAX_AUDIO_CHUNKS - 1 && !final {
      return None;
    }
    var json := AUDIO_LEAD;
    json := json + Decimal(index);
    json := json + ([','] + FINAL_KEY);
    json := json + FinalText(final);
    json := json + ([','] + STREAM_KEYS);
    json := json + streamId;
    json := json + ([QUOTE] + "}");
    AadInPieces(streamId, index, final, json);
    var required := |AUDIO_PREFIX| + |json|;
    if required > capacity || required > MAX_ADDITIONAL_DATA_BYTES {
      return None;
    }
    data := Some(AUDIO_PREFIX + json);
  }

  lemma Associative(a: Octets, b: Octets, c: Octets)
    ensures a + b + c == a + (b + c)
  {
  }

  lemma SevenPieces(a: Octets, b: Octets, c: Octets, d: Octets, e: Octets, f: Octets, g: Octets)
    ensures a + b + c + d + e + f + g == a + (b + (c + (d + (e + (f + g)))))
  {
    Associative(e, f, g);
    Associative(d, e, f + g);
    Associative(c, d, e + (f + g));
    Associative(b, c, d + (e + (f + g)));
    Associative(a, b, c + (d + (e + (f + g))));
    Associative(a + b, c, d + (e + (f + g)));
    Associative(a + b + c, d, e + (f + g));
    Associative(a + b + c + d, e, f + g);
    Associative(a + b + c + d + e, f, g);
  }

  lemma AadInPieces(streamId: string, index: nat, final: bool, json: Octets)
    requires json == AUDIO_LEAD + Decimal(index) + ([','] + FINAL_KEY) + FinalText(final) + ([','] + STREAM_KEYS) + streamId +
                     ([QUOTE] + "}")
    ensures AUDIO_PREFIX + json == AudioAad(streamId, index, final)
  {
    var e := [QUOTE] + "}";
    SevenPieces(AUDIO_LEAD, Decimal(index), [','] + FINAL_KEY, FinalText(final), [','] + STREAM_KEYS, streamId, e);
    Associative([','], STREAM_KEYS, streamId + e);
    Associative([','], FINAL_KEY, FinalText(final) + ([','] + (STREAM_KEYS + (streamId + e))));
  }

  class PipaSecureAudioSender {
    const session: PipaSecureSession
    const valid: bool
    const streamId: string
    var nextChunk: nat
    var streamBytes: nat
    var finished: bool

    ghost function View(): SenderState
      reads this
    {
      SenderState(streamId, nextChunk, streamBytes, finished)
    }

    constructor (session: PipaSecureSession, streamId: string)
      ensures this.session == session && valid == Identifier(streamId, MAX_AUDIO_STREAM_ID_LENGTH)
      ensures View() == SenderState(streamId, 0, 0, false)
    {
      this.session, this.streamId := session, streamId;
      this.valid := Identifier(streamId, MAX_AUDIO_STREAM_ID_LENGTH);
      this.nextChunk, this.streamBytes, this.finished := 0, 0, false;
    }

    method SealChunk(samples: bytes, final: bool) returns (frame: Option<DeviceFrame>)
      requires session.Valid() && valid == Identifier(streamId, MAX_AUDIO_STREAM_ID_LENGTH)
      modifies this, session`sendSequence
      ensures session.Valid()
      ensures !valid ==> frame.None? && View() == old(View()) && session.View() == old(session.View())
      ensures valid ==>
                var (end, state, r) := SealChunkIn(old(session.View()), old(View()), samples, final);
                && session.View() == end && View() == state
                && (frame.Some? <==> r.Success?) && (frame.Some? ==> AsAudioFrame(frame.value, session.sessionId) == r.value)
    {
      hide AudioAad, Nonce, Header, Identifier;
      if !valid || finished || !session.ready || !GoodSamples(samples) || nextChunk >= MAX_AUDIO_CHUNKS ||
         streamBytes + |samples| > MAX_AUDIO_STREAM_BYTES || (nextChunk == MAX_AUDIO_CHUNKS - 1 && !final)
      {
        return None;
      }
      var data := BuildAdditionalData(streamId, nextChunk, final, MAX_ADDITIONAL_DATA_BYTES);
      if data.None? {
        return None;
      }
      var sequence := session.sendSequence;
      var ciphertext := session.Seal(samples, data.value, MAX_CIPHERTEXT);
      if ciphertext.None? {
        return None;
      }
      frame := Some(DeviceFrame(sequence, AUDIO_PROTOCOL_VERSION, AUDIO_BITS_PER_SAMPLE, AUDIO_CHANNELS, nextChunk, final,
                                AUDIO_SAMPLE_RATE, streamId, ciphertext.value));
      nextChunk := nextChunk + 1;
      streamBytes := streamBytes + |samples|;
      finished := final;
    }

    method Cancel()
      modifies this
      ensures View() == CancelledSender(old(View()))
    {
      finished := true;
      nextChunk := 0;
      streamBytes := 0;
    }
  }

  class PipaSecureAudioReceiver {
    const session: PipaSecureSession
    var hasStream: bool
    var streamId: string
    var nextChunk: nat
    var streamBytes: nat
    var finished: bool

    ghost function View(): ReceiverState
      reads this
    {
      ReceiverState(if hasStream then Some(streamId) else None, nextChunk, streamBytes, finished)
    }

    constructor (session: PipaSecureSession)
      ensures this.session == session && View() == EMPTY
    {
      this.session := session;
      this.hasStream, this.streamId, this.nextChunk, this.streamBytes, this.finished := false, "", 0, 0, false;
    }

    /** `openChunk`: the samples are written into the caller's buffer, which is zeroed on any failure. */
    method OpenChunk(frame: DeviceFrame, output: array<byte>) returns (ok: bool, length: nat)
      requires session.Valid() && frame.sequence <= MAX_SEQUENCE
      modifies this, session, output
      ensures session.Valid()
      ensures var (end, state, samples) :=
                OpenChunkIn(old(session.View()), old(View()), AsAudioFrame(frame, old(session.sessionId)));
              && (ok <==> samples.Success? && |samples.value| <= output.Length)
              && (ok ==> session.View() == end && View() == state && length == |samples.value| && output[..length] == samples.value)
      ensures !ok ==> session.View().closed && View() == EMPTY && length == 0 && forall i :: 0 <= i < output.Length ==> output[i] == 0
    {
      hide AudioAad, Nonce, Header, Identifier;
      var samples := TryOpen(frame, output.Length);
      if samples.None? {
        FailClosed(output);
        return false, 0;
      }
      ok, length := true, |samples.value|;
      for i := 0 to length
        invariant forall k :: 0 <= k < i ==> output[k] == samples.value[k]
        modifies output
      {
        output[i] := samples.value[i];
      }
    }

    /** Everything before the buffer is touched. */
    method TryOpen(frame: DeviceFrame, capacity: nat) returns (samples: Option<bytes>)
      requires session.Valid() && frame.sequence <= MAX_SEQUENCE
      modifies this, session`receiveSequence
      ensures session.Valid()
      ensures var (end, state, r) :=
                OpenChunkIn(old(session.View()), old(View()), AsAudioFrame(frame, old(session.sessionId)));
              && (samples.Some? <==> r.Success? && |r.value| <= capacity)
              && (samples.Some? ==> session.View() == end && View() == state && samples.value == r.value)
    {
      hide AudioAad, Nonce, Header, Identifier;
      if !session.ready || finished || frame.version != AUDIO_PROTOCOL_VERSION || frame.bits != AUDIO_BITS_PER_SAMPLE ||
         frame.channels != AUDIO_CHANNELS || frame.rate != AUDIO_SAMPLE_RATE || frame.index >= MAX_AUDIO_CHUNKS ||
         frame.sequence != session.receiveSequence || Length(frame.ciphertext) < TAG_BYTES ||
         Length(frame.ciphertext) > MAX_CIPHERTEXT || !Identifier(frame.streamId, MAX_AUDIO_STREAM_ID_LENGTH) ||
         (!hasStream && frame.index != 0) || (hasStream && frame.streamId != streamId) || frame.index != nextChunk
      {
        return None;
      }
      if Length(frame.ciphertext) - TAG_BYTES > capacity {
        return None;
      }
      var data := BuildAdditionalData(frame.streamId, frame.index, frame.final, MAX_ADDITIONAL_DATA_BYTES);
      if data.None? {
        return None;
      }
      samples := session.Open(frame.sequence, frame.ciphertext, data.value, capacity);
      if samples.None? {
        return None;
      }
      if !GoodSamples(samples.value) || streamBytes + |samples.value| > MAX_AUDIO_STREAM_BYTES {
        return None;
      }
      if !hasStream {
        streamId := frame.streamId;
      }
      hasStream := true;
      nextChunk := nextChunk + 1;
      streamBytes := streamBytes + |samples.value|;
      finished := frame.final;
    }

    method FailClosed(output: array<byte>)
      modifies this, session, output
      ensures View() == EMPTY && session.Valid() && session.View().closed
      ensures forall i :: 0 <= i < output.Length ==> output[i] == 0
    {
      for i := 0 to output.Length
        invariant forall k :: 0 <= k < i ==> output[k] == 0
        modifies output
      {
        output[i] := 0;
      }
      Cancel();
      session.Clear();
    }

    method Cancel()
      modifies this
      ensures View() == EMPTY
    {
      hasStream, streamId, nextChunk, streamBytes, finished := false, "", 0, 0, false;
    }

    method Close()
      modifies this, session
      ensures View() == EMPTY && session.Valid() && session.View().closed
    {
      Cancel();
      session.Clear();
    }
  }
}

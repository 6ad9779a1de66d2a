/**
 * Exactly when the command bridge hears a chunk, forgets a stream and dispatches a command, in terms of the log and of
 * what was sent (windows-agent/secure_audio.py); and that every command of every sender can be given.
 */
module CommandOutcomes {
  import opened Prelude
  import opened Framing
  import opened SecureAudio
  import opened AudioBridge
  import opened AudioCommands
  import RL = RecordLayer
  import Streams = AudioStreams

  /** Attached, nothing closed, and capture is open. */
  predicate Capturing(s: Station) {
    s.bridge.attached && !s.consumer.closed && s.gate == Listening
  }

  /** A whole stream was heard, and the provider made `text` of it. */
  predicate Commanded(log: seq<AudioEvent>, text: string) {
    var heard := Hearings(log);
    heard != [] && HeardWhole(heard, heard[|heard| - 1]) && Transcribes(heard[|heard| - 1], text)
  }

  predicate AllHeard(log: seq<AudioEvent>) {
    var heard := Hearings(log);
    heard != [] && heard[|heard| - 1].final
  }

  // ----- Finalize -----

  /**
   * Finalizing dispatches exactly the text of a whole stream heard with capture still open. It replies with a summary
   * exactly when the dispatcher then returned, and the summary counts the samples that were heard. Whatever happens,
   * the bridge is detached and the session closed.
   */
  lemma FinalizesExactly(stations: seq<Station>, actions: seq<Action>, i: nat, ok: bool, text: string)
    requires Behaviour(stations, actions) && i < |stations|
    ensures var s := stations[i];
            var after, reply := Next(s, Use(Finalize(ok))), FinalizeIn(StackOf(s), ok).1;
            && (after.log == s.log + [Dispatched(text)] <==> Capturing(s) && Commanded(s.log, text))
            && (after.log == s.log || exists t :: after.log == s.log + [Dispatched(t)])
            && (reply.Returned? <==> ok && after.log != s.log)
            && (reply.Returned? ==>
                  var heard, duration := Streams.Total(Samples(Hearings(s.log))), reply.value.streamDurationMs;
                  reply.value.streamBytes == heard && 32 * duration <= heard < 32 * (duration + 1))
            && !after.bridge.attached && after.consumer.closed && after.audio.world.server.end.closed
  {
    hide Behaviour, Inv;
    BehaviourKeepsInv(stations, actions, i);
    FinalizeOutcomes(stations[i], ok, text);
  }

  lemma FinalizeOutcomes(s: Station, ok: bool, text: string)
    requires Inv(s)
    ensures var after, reply := Next(s, Use(Finalize(ok))), FinalizeIn(StackOf(s), ok).1;
            && (after.log == s.log + [Dispatched(text)] <==> Capturing(s) && Commanded(s.log, text))
            && (after.log == s.log || exists t :: after.log == s.log + [Dispatched(t)])
            && (reply.Returned? <==> ok && after.log != s.log)
            && (reply.Returned? ==>
                  var heard, duration := Streams.Total(Samples(Hearings(s.log))), reply.value.streamDurationMs;
                  reply.value.streamBytes == heard && 32 * duration <= heard < 32 * (duration + 1))
            && !after.bridge.attached && after.consumer.closed && after.audio.world.server.end.closed
  {
    hide Streams.Inv, LogExplained, Hearings, Started, Samples, AllPartial, Streams.Total, BoundedText, Strip;
    var after := Next(s, Use(Finalize(ok)));
    FinalizeKeeps(s, Finalize(ok));
    assert (s.log + [Dispatched(text)])[|s.log|] == Dispatched(text);
    if Capturing(s) {
      FinishedExactly(s);
      BytesHeard(s);
    }
  }

  /** While the consumer is open, the log says whether the stream is finished and what the transcript is. */
  lemma FinishedExactly(s: Station)
    requires Inv(s) && !s.consumer.closed
    ensures s.consumer.finished == s.audio.receiver.finished == AllHeard(s.log)
    ensures s.consumer.finished ==> forall text :: s.transcriber.transcript == Some(text) <==> Commanded(s.log, text)
    ensures !s.consumer.finished ==> s.transcriber.transcript.None? && AllPartial(Hearings(s.log)) && forall text :: !Commanded(s.log, text)
  {
    hide Streams.Inv, LogExplained, Hearings, Started, Samples;
    var heard := Hearings(s.log);
    assert heard != [] ==> heard[|heard| - 1] in heard;
  }

  lemma BytesHeard(s: Station)
    requires Inv(s) && !s.consumer.closed
    ensures s.audio.receiver.streamBytes == Streams.Total(Samples(Hearings(s.log)))
  {
    hide RL.Inv, Streams.TagsInv, Streams.SendersInv, Streams.Ordered, Streams.AllTagged, Streams.Total, LogExplained, Hearings,
         Started, Samples;
    Streams.NothingDelivered();
  }

  // ----- Consume, begin and cancel -----

  /** The next record carries this chunk, the last one of its stream or not. */
  predicate NextIs(s: Station, samples: bytes, final: bool) {
    var tag := Streams.NextTag(s.audio);
    && tag.Chunk? && tag.sender < |s.audio.senders| && tag.index < |s.audio.senders[tag.sender].chunks|
    && samples == s.audio.senders[tag.sender].chunks[tag.index] && final == Streams.IsLastChunk(s.audio.senders, tag)
  }

  /** An answer that keeps the bridge open. */
  predicate Acceptable(final: bool, answer: Answer) {
    answer.Nothing? || (final && answer.Text? && BoundedText(answer.value))
  }

  /**
   * While capture is open the provider is given exactly the chunk whose turn it is, as its sender sealed it, and told
   * whether it is the last one. The bridge stays open exactly when the provider then answers nothing, or a bounded text
   * to the last chunk; everything else closes the session.
   */
  lemma ConsumesExactly(stations: seq<Station>, actions: seq<Action>, i: nat, frame: AudioFrame, answer: Answer,
                        samples: bytes, final: bool)
    requires Behaviour(stations, actions) && i < |stations| && Enabled(stations[i], Use(Consume(frame, answer)))
    ensures var s := stations[i];
            var after, reply := Next(s, Use(Consume(frame, answer))), ConsumeIn(StackOf(s), frame, answer).1;
            var hears := Capturing(s) && Streams.IsNextChunk(s.audio, frame);
            && (hears && NextIs(s, samples, final) <==> after.log == s.log + [Heard(samples, final, answer)])
            && (hears ==> exists x, f :: NextIs(s, x, f))
            && (hears && NextIs(s, samples, final) ==> reply == if Acceptable(final, answer) then Returned(final) else Raised)
            && (!hears ==> after.log == s.log && reply.Raised?)
            && (reply.Raised? <==> after.consumer.closed)
            && (if reply.Raised? then after.audio.world.server.end.closed else Capturing(after))
  {
    hide Behaviour, Inv, Enabled, Streams.IsNextChunk, NextIs, Next, Hearings, BoundedText, ConsumeIn;
    BehaviourKeepsInv(stations, actions, i);
    ConsumeOutcomes(stations[i], frame, answer);
    var s := stations[i];
    var after, reply := Next(s, Use(Consume(frame, answer))), ConsumeIn(StackOf(s), frame, answer).1;
    assert (s.log + [Heard(samples, final, answer)])[|s.log|] == Heard(samples, final, answer);
    if Capturing(s) && Streams.IsNextChunk(s.audio, frame) {
      var x, f :| NextIs(s, x, f) && after.log == s.log + [Heard(x, f, answer)]
                  && reply == if Acceptable(f, answer) then Returned(f) else Raised;
      assert (s.log + [Heard(x, f, answer)])[|s.log|] == Heard(x, f, answer);
      NextIsOne(s, x, f);
    }
  }

  lemma NextIsOne(s: Station, samples: bytes, final: bool)
    ensures forall x, f :: NextIs(s, x, f) && NextIs(s, samples, final) ==> x == samples && f == final
  {
    hide Streams.IsLastChunk;
  }

  /** The same of one station, with the chunk named. */
  lemma ConsumeOutcomes(s: Station, frame: AudioFrame, answer: Answer)
    requires Inv(s) && Enabled(s, Use(Consume(frame, answer)))
    ensures var after, reply := Next(s, Use(Consume(frame, answer))), ConsumeIn(StackOf(s), frame, answer).1;
            && (if Capturing(s) && Streams.IsNextChunk(s.audio, frame) then
                  exists samples, final ::
                    && NextIs(s, samples, final) && after.log == s.log + [Heard(samples, final, answer)]
                    && reply == if Acceptable(final, answer) then Returned(final) else Raised
                else after.log == s.log && reply.Raised?)
            && (reply.Raised? <==> after.consumer.closed)
            && (if reply.Raised? then after.audio.world.server.end.closed else Capturing(after))
  {
    hide Streams.Inv, RL.CanDeliver, RL.Next, OpenChunkIn, LogExplained, BoundedText, Strip, Hearings, Started, Samples,
         Streams.IsNextChunk;
    var after := Next(s, Use(Consume(frame, answer)));
    ConsumeKeeps(s, frame, answer);
    Streams.ChunkOpensExactly(s.audio, frame);
    if Capturing(s) && Streams.IsNextChunk(s.audio, frame) {
      Streams.OpenedChunk(s.audio, frame);
      var (_, receiver, samples) := OpenChunkIn(s.audio.world.server.end, s.audio.receiver, frame);
      assert NextIs(s, samples.value, receiver.finished);
      assert after.log == s.log + [Heard(samples.value, receiver.finished, answer)];
    }
  }

  /** Capture opens exactly with a ready codec, display, consent and secure transport. */
  lemma BeginsExactly(stations: seq<Station>, actions: seq<Action>, i: nat, display: bool, consent: bool, transport: bool)
    requires Behaviour(stations, actions) && i < |stations|
    ensures var s := stations[i];
            var after := Next(s, Use(Begin(display, consent, transport)));
            var reply := BeginIn(StackOf(s), display, consent, transport).1;
            var begins := !s.consumer.closed && s.gate == CodecReady && display && consent && transport;
            && (reply.Returned? <==> begins) && (begins ==> Capturing(after))
            && after.log == (if begins then s.log + [Begun(true, true, true)] else s.log)
            && (!begins && after.gate == Listening ==> s.gate == Listening)
  {
    hide Behaviour, Streams.Inv, Tracks, LogExplained;
    BehaviourKeepsInv(stations, actions, i);
  }

  /** Cancelling an open bridge forgets the stream; it stays open for the next one unless resetting the provider fails. */
  lemma CancelsExactly(stations: seq<Station>, actions: seq<Action>, i: nat, ok: bool)
    requires Behaviour(stations, actions) && i < |stations|
    ensures var s := stations[i];
            var after, reply := Next(s, Use(Cancel(ok))), CancelIn(StackOf(s), ok).1;
            && after.log == (if s.consumer.closed then s.log else s.log + [Forgot])
            && (!s.consumer.closed ==> Hearings(after.log) == [])
            && (reply.Returned? <==> s.consumer.closed || ok || !s.transcriber.hasReset)
            && (after.consumer.closed <==> s.consumer.closed || reply.Raised?)
            && (!after.consumer.closed ==>
                  && after.bridge.attached && after.transcriber.transcript.None? && after.audio.receiver == EMPTY
                  && after.gate == if s.gate == Listening then CodecReady else s.gate)
  {
    hide Behaviour, Streams.Inv, Tracks, LogExplained, Hearings;
    BehaviourKeepsInv(stations, actions, i);
    HearingsAppend(stations[i].log, Forgot);
  }

  // ----- Every command can be given -----

  ghost predicate Leads(s: Station, actions: seq<Action>, t: Station)
    decreases |actions|
  {
    if actions == [] then s == t
    else Enabled(s, actions[0]) && Leads(Next(s, actions[0]), actions[1..], t)
  }

  lemma LeadsOne(s: Station, a: Action)
    requires Enabled(s, a)
    ensures Leads(s, [a], Next(s, a))
  {
    hide Enabled, Next;
    assert [a][1..] == [];
  }

  lemma {:induction false} LeadsOn(s: Station, actions: seq<Action>, t: Station, more: seq<Action>, u: Station)
    requires Leads(s, actions, t) && Leads(t, more, u)
    ensures Leads(s, actions + more, u)
    decreases |actions|
  {
    hide Enabled, Next;
    if actions == [] {
      assert actions + more == more;
    } else {
      assert (actions + more)[1..] == actions[1..] + more;
      LeadsOn(Next(s, actions[0]), actions[1..], t, more, u);
    }
  }

  /** Capture is open and the receiver waits for the next chunk of sender `n`, on a session with room for more. */
  ghost predicate Hearkens(s: Station, n: nat, room: nat) {
    Inv(s) && Capturing(s) && Streams.CaughtUp(s.audio, room) && Streams.WaitsFor(s.audio, n)
  }

  /** One chunk is sealed, delivered and heard. */
  lemma HearOne(s: Station, n: nat, samples: bytes, final: bool, answer: Answer, room: nat) returns (actions: seq<Action>, t: Station)
    requires Hearkens(s, n, room + 1) && GoodSamples(samples) && Acceptable(final, answer)
    requires |s.audio.senders[n].chunks| == MAX_AUDIO_CHUNKS - 1 ==> final
    ensures Leads(s, actions, t) && Inv(t) && Capturing(t) && (!final ==> Hearkens(t, n, room))
    ensures |t.audio.senders| == |s.audio.senders| && t.audio.senders[n].chunks == s.audio.senders[n].chunks + [samples]
    ensures t.log == s.log + [Heard(samples, final, answer)]
  {
    hide Inv, RL.CanDeliver, Streams.SealChunkNext, Streams.OpenChunkNext, Streams.NextFrame, Streams.IsNextChunk, Operate, Leads,
         Streams.Inv, BoundedText, OpenChunkIn, SealChunkIn;
    var a := Elsewhere(Streams.SealChunk(n, samples, final));
    assert Streams.Inv(s.audio) by { AudioOf(s); }
    Streams.SealWorks(s.audio, n, samples, final);
    StepKeepsInv(s, a);
    var between := Next(s, a);
    AudioOf(between);
    Streams.SealedIsNext(s.audio, between.audio, n, samples, final);
    Streams.OpenWorks(between.audio);
    var frame := Streams.NextFrame(between.audio);
    var b := Use(Consume(frame, answer));
    StepKeepsInv(between, b);
    t := Next(between, b);
    ConsumeOutcomes(between, frame, answer);
    NextIsOne(between, samples, final);
    LeadsOne(s, a);
    LeadsOne(between, b);
    LeadsOn(s, [a], between, [b], t);
    actions := [a] + [b];
  }

  lemma AudioOf(s: Station)
    requires Inv(s)
    ensures Streams.Inv(s.audio)
  {
  }

  /** The chunks before the last one, each of them answered with nothing. */
  lemma {:induction false} HearAll(s: Station, n: nat, chunks: seq<bytes>, room: nat) returns (actions: seq<Action>, t: Station)
    requires Hearkens(s, n, room + |chunks|) && s.audio.senders[n].chunks == [] && Hearings(s.log) == [] && |chunks| < MAX_AUDIO_CHUNKS
    requires forall c :: c in chunks ==> GoodSamples(c)
    ensures Leads(s, actions, t) && Hearkens(t, n, room)
    ensures t.audio.senders[n].chunks == chunks && Samples(Hearings(t.log)) == chunks && s.log <= t.log
    decreases |chunks|
  {
    hide Leads, Inv, Streams.CaughtUp, Streams.WaitsFor, Capturing, GoodSamples, Hearings, Samples;
    if chunks == [] {
      actions, t := [], s;
      LeadsNowhere(s);
      NoSamples();
    } else {
      var k := |chunks| - 1;
      var first, middle := HearAll(s, n, chunks[..k], room + 1);
      var last, after := HearOne(middle, n, chunks[k], false, Nothing, room);
      HearingsAppend(middle.log, Heard(chunks[k], false, Nothing));
      SamplesAppend(Hearings(middle.log), Heard(chunks[k], false, Nothing));
      LeadsOn(s, first, middle, last, after);
      actions, t := first + last, after;
    }
  }

  lemma NoSamples()
    ensures Samples([]) == []
  {
  }

  lemma LeadsNowhere(s: Station)
    ensures Leads(s, [], s)
  {
  }

  /** Open, the codec ready, no stream begun, and `room` sequence numbers left on a session with nothing under way. */
  ghost predicate Idle(s: Station, room: nat) {
    Inv(s) && !s.consumer.closed && s.gate == CodecReady && Hearings(s.log) == [] && Streams.CaughtUp(s.audio, room)
  }

  /** A new bridge is idle once the codec is up. */
  lemma StartsIdle(s: Station, room: nat)
    requires Init(s) && Streams.CaughtUp(s.audio, room)
    ensures Idle(Next(s, Use(MarkReady(true))), room)
  {
    hide Streams.Inv, Streams.CaughtUp;
    InitInv(s);
    GateKeeps(s, MarkReady(true));
  }

  /** From an idle bridge a new sender gets the receiver to wait for its first chunk. */
  lemma Start(s: Station, id: string, room: nat) returns (actions: seq<Action>, t: Station)
    requires Idle(s, room) && Identifier(id, MAX_AUDIO_STREAM_ID_LENGTH)
    ensures Leads(s, actions, t) && Hearkens(t, |s.audio.senders|, room) && t.audio.senders[|s.audio.senders|].chunks == []
    ensures Hearings(t.log) == [] && s.log <= t.log
  {
    hide Streams.Inv, LogExplained, Leads, Identifier, Hearings, Started, Samples;
    NothingHeard(s);
    var a, b := Elsewhere(Streams.NewSender(id)), Use(Begin(true, true, true));
    StepKeepsInv(s, a);
    var between := Next(s, a);
    StepKeepsInv(between, b);
    t := Next(between, b);
    HearingsAppend(s.log, Begun(true, true, true));
    LeadsOne(s, a);
    LeadsOne(between, b);
    LeadsOn(s, [a], between, [b], t);
    actions := [a] + [b];
  }

  lemma {:induction false} SamplesOf(heard: seq<AudioEvent>)
    requires forall e :: e in heard ==> e.Heard?
    ensures |Samples(heard)| == |heard|
  {
    if heard != [] {
      SamplesOf(heard[..|heard| - 1]);
    }
  }

  lemma NothingHeard(s: Station)
    requires Inv(s) && !s.consumer.closed && Hearings(s.log) == []
    ensures s.audio.receiver == EMPTY
  {
    hide RL.Inv, Streams.TagsInv, Streams.SendersInv, Streams.Ordered, Streams.AllTagged, Streams.Total, LogExplained, Hearings,
         Started;
  }

  /**
   * Any recording of up to 64 good chunks can be sent, and whatever bounded text the provider makes of it is
   * dispatched, with the summary of all its samples as the reply.
   */
  lemma EveryCommandCanBeGiven(s: Station, id: string, chunks: seq<bytes>, last: bytes, text: string)
    returns (actions: seq<Action>, t: Station)
    requires Idle(s, |chunks| + 1) && Identifier(id, MAX_AUDIO_STREAM_ID_LENGTH) && |chunks| < MAX_AUDIO_CHUNKS
    requires (forall c :: c in chunks ==> GoodSamples(c)) && GoodSamples(last) && BoundedText(text)
    ensures Leads(s, actions, t) && FinalizeIn(StackOf(t), true).1.Returned?
    ensures Next(t, Use(Finalize(true))).log == t.log + [Dispatched(Strip(text))]
    ensures Samples(Hearings(t.log)) == chunks + [last]
    ensures FinalizeIn(StackOf(t), true).1.value.streamBytes == Streams.Total(chunks + [last])
  {
    hide Leads, Inv, Streams.CaughtUp, GoodSamples, BoundedText, Identifier, Next, FinalizeIn, Strip,
         Hearings;
    var n := |s.audio.senders|;
    var a, s1 := Start(s, id, |chunks| + 1);
    var b, s2 := HearAll(s1, n, chunks, 1);
    var c, s3 := HearOne(s2, n, last, true, Text(text), 0);
    var e := Heard(last, true, Text(text));
    LeadsOn(s, a, s1, b, s2);
    LeadsOn(s, a + b, s2, c, s3);
    HearingsAppend(s2.log, e);
    SamplesAppend(Hearings(s2.log), e);
    FinishedExactly(s2);
    FinishedExactly(s3);
    assert Hearings(s3.log)[..|chunks|] == Hearings(s2.log) by { SamplesOf(Hearings(s2.log)); }
    FinalizeOutcomes(s3, true, Strip(text));
    actions, t := a + b + c, s3;
  }
}

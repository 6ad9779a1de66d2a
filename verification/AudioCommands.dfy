/**
 * The command bridge on top of the audio system: device senders, network, receiver, capture gate, transcriber and
 * dispatcher in one state machine, with a log of every callback.
 */
module AudioCommands {
  import opened Prelude
  import opened SecureAudio
  import opened AudioBridge
  import RL = RecordLayer
  import Streams = AudioStreams

  datatype Station = Station(
    audio: Streams.System,
    gate: Capture,
    consumer: ConsumerState,
    transcriber: TranscriberState,
    bridge: BridgeState,
    log: seq<AudioEvent>)

  datatype Action =
    | Elsewhere(step: Streams.Step)
    | Use(op: Operation)

  function StackOf(s: Station): Stack {
    Stack(s.audio.world.server.end, s.audio.receiver, s.gate, s.consumer, s.transcriber, s.bridge)
  }

  /** What happens in the audio system other than through the bridge, which alone uses the receiver. */
  predicate Enabled(s: Station, a: Action) {
    match a
    case Elsewhere(step) =>
      !step.OpenChunk? && !step.CancelReceiver? && !step.CloseReceiver? && Streams.Enabled(s.audio, step)
    case Use(op) => op.Consume? ==> RL.CanDeliver(s.audio.world, op.frame.record)
  }

  predicate Opening(s: Stack, op: Operation) {
    op.Consume? && Available(s) && !s.consumer.finished && s.gate == Listening
  }

  /** What the operation makes the receiver do. */
  function AudioNext(s: Station, op: Operation): Streams.System
    requires Enabled(s, Use(op))
  {
    var stack := StackOf(s);
    var closing := !s.consumer.closed && Operate(stack, op).0.consumer.closed;
    var audio :=
      if Opening(stack, op) then Streams.Next(s.audio, Streams.OpenChunk(op.frame))
      else if op.Cancel? && Available(stack) then Streams.Next(s.audio, Streams.CancelReceiver)
      else s.audio;
    if closing then Streams.Next(audio, Streams.CloseReceiver) else audio
  }

  function Next(s: Station, a: Action): Station
    requires Enabled(s, a)
  {
    match a
    case Elsewhere(step) => s.(audio := Streams.Next(s.audio, step))
    case Use(op) =>
      var (after, events) := Operate(StackOf(s), op);
      Station(AudioNext(s, op), after.gate, after.consumer, after.transcriber, after.bridge, s.log + events)
  }

  ghost predicate Init(s: Station) {
    && Streams.Init(s.audio) && s.gate == Disabled && s.log == []
    && s.consumer == ConsumerState(false, false, true)
    && s.transcriber == TranscriberState(None, true, s.transcriber.hasReset, false, false)
    && s.bridge == BridgeState(true, true, false)
  }

  ghost predicate Behaviour(stations: seq<Station>, actions: seq<Action>) {
    && |stations| == |actions| + 1 && Init(stations[0])
    && forall i :: 0 <= i < |actions| ==> Enabled(stations[i], actions[i]) && stations[i + 1] == Next(stations[i], actions[i])
  }

  /** No new sender takes the id of one that can still seal. */
  predicate IdsKeptApart(stations: seq<Station>, actions: seq<Action>) {
    && |stations| == |actions| + 1
    && forall i :: 0 <= i < |actions| && actions[i].Elsewhere? ==> Streams.FreshId(stations[i].audio, actions[i].step)
  }

  /** The session and the receiver of the audio system are those the bridge's operations work on. */
  lemma ReceiverAgrees(s: Station, op: Operation)
    requires Enabled(s, Use(op))
    ensures StackOf(Next(s, Use(op))) == Operate(StackOf(s), op).0
  {
    hide Checked, RL.CanDeliver, RL.OpenIn, Aad, BoundedText, Strip;
    if Opening(StackOf(s), op) {
      Streams.StepsAreTheirs(s.audio, 0, [], false, op.frame);
    }
  }

  // ----- What the log says -----

  /** The chunks the provider was given since the last time the stream was forgotten. */
  function Hearings(log: seq<AudioEvent>): (r: seq<AudioEvent>)
    ensures forall e :: e in r ==> e.Heard?
  {
    if log == [] then []
    else
      var e, rest := log[|log| - 1], log[..|log| - 1];
      if e.Forgot? then [] else if e.Heard? then Hearings(rest) + [e] else Hearings(rest)
  }

  /** Capture was opened since then. */
  predicate Started(log: seq<AudioEvent>) {
    log != [] && var e := log[|log| - 1]; !e.Forgot? && (e.Begun? || Started(log[..|log| - 1]))
  }

  function Samples(heard: seq<AudioEvent>): seq<bytes>
    requires forall e :: e in heard ==> e.Heard?
  {
    if heard == [] then [] else Samples(heard[..|heard| - 1]) + [heard[|heard| - 1].samples]
  }

  /** A chunk before the final one, on which the provider returned nothing. */
  predicate Partial(e: AudioEvent) {
    e.Heard? && !e.final && e.answer.Nothing?
  }

  predicate AllPartial(heard: seq<AudioEvent>) {
    forall e :: e in heard ==> Partial(e)
  }

  /** The provider heard a whole stream, chunk by chunk, and `e` is what it heard last. */
  predicate HeardWhole(heard: seq<AudioEvent>, e: AudioEvent) {
    heard != [] && heard[|heard| - 1] == e && e.Heard? && e.final && AllPartial(heard[..|heard| - 1])
  }

  predicate Transcribes(e: AudioEvent, text: string) {
    e.Heard? && e.answer.Text? && BoundedText(e.answer.value) && text == Strip(e.answer.value)
  }

  /** The samples are chunks number 0, 1, ... of senders with one stream id, the last a final one. */
  predicate FromStream(senders: seq<Streams.Sending>, samples: seq<bytes>, origins: seq<Streams.Tag>, id: string) {
    && |origins| == |samples| > 0 && Streams.IsLastChunk(senders, origins[|origins| - 1])
    && forall k :: 0 <= k < |samples| ==> IsChunkOf(senders, samples[k], origins[k], id, k)
  }

  predicate IsChunkOf(senders: seq<Streams.Sending>, samples: bytes, origin: Streams.Tag, id: string, k: nat) {
    && origin.Chunk? && origin.index == k && origin.sender < |senders|
    && var x := senders[origin.sender];
       x.state.streamId == id && k < |x.chunks| && samples == x.chunks[k]
  }

  /**
   * The text is the provider's answer to the last chunk of a stream it heard whole, chunk by chunk, with capture open;
   * every chunk is genuine, in its place, and the last one is final.
   */
  ghost predicate Earned(senders: seq<Streams.Sending>, past: seq<AudioEvent>, text: string) {
    && Started(past)
    && (exists e :: HeardWhole(Hearings(past), e) && Transcribes(e, text))
    && exists origins, id :: FromStream(senders, Samples(Hearings(past)), origins, id)
  }

  /** All of one sender's finished stream. */
  predicate IsWholeStream(senders: seq<Streams.Sending>, samples: seq<bytes>) {
    exists n :: 0 <= n < |senders| && senders[n].completed && senders[n].chunks == samples
  }

  predicate HasDispatched(log: seq<AudioEvent>) {
    exists e :: e in log && e.Dispatched?
  }

  ghost predicate Explained(senders: seq<Streams.Sending>, past: seq<AudioEvent>, e: AudioEvent) {
    match e
    case Begun(displayReady, consented, secureTransport) => displayReady && consented && secureTransport
    case Heard(_, _, _) => Started(past)
    case Forgot => true
    case Dispatched(text) => Earned(senders, past, text) && !HasDispatched(past)
  }

  ghost predicate LogExplained(senders: seq<Streams.Sending>, log: seq<AudioEvent>) {
    forall k :: 0 <= k < |log| ==> Explained(senders, log[..k], log[k])
  }

  // ----- The invariant -----

  /** While the consumer is open, its state is what the log says. */
  predicate Tracks(s: Station) {
    var heard := Hearings(s.log);
    && s.consumer.hasCallback && s.transcriber.hasProvider && !s.transcriber.providerClosed
    && s.consumer.finished == s.audio.receiver.finished
    && Samples(heard) == s.audio.delivered
    && s.gate != Draining && (s.gate == Listening || heard != [] ==> Started(s.log))
    && if !s.consumer.finished then s.transcriber.transcript.None? && AllPartial(heard)
       else
         && heard != [] && HeardWhole(heard, heard[|heard| - 1])
         && Recorded(heard[|heard| - 1], s.transcriber.transcript)
  }

  /** The transcript is what the provider answered to the final chunk, if it answered anything. */
  predicate Recorded(e: AudioEvent, transcript: Option<string>) {
    match transcript
    case None => e.Heard? && e.answer.Nothing?
    case Some(text) => Transcribes(e, text)
  }

  ghost predicate Inv(s: Station) {
    && Streams.Inv(s.audio) && LogExplained(s.audio.senders, s.log)
    && (s.bridge.attached ==> s.bridge.hasDispatch && !s.bridge.dispatched && !HasDispatched(s.log))
    && (s.transcriber.providerClosed ==> s.consumer.closed)
    && if s.consumer.closed then s.audio.world.server.end.closed else s.bridge.attached && Tracks(s)
  }

  lemma InitInv(s: Station)
    requires Init(s)
    ensures Inv(s)
  {
    Streams.InitInv(s.audio);
  }

  // ----- The log grows -----

  lemma HearingsAppend(log: seq<AudioEvent>, e: AudioEvent)
    ensures Hearings(log + [e]) == if e.Forgot? then [] else if e.Heard? then Hearings(log) + [e] else Hearings(log)
    ensures Started(log + [e]) <==> !e.Forgot? && (e.Begun? || Started(log))
  {
    assert (log + [e])[..|log|] == log;
  }

  lemma SamplesAppend(heard: seq<AudioEvent>, e: AudioEvent)
    requires (forall x :: x in heard ==> x.Heard?) && e.Heard?
    ensures Samples(heard + [e]) == Samples(heard) + [e.samples]
  {
    assert (heard + [e])[..|heard|] == heard;
  }

  lemma LogLater(before: seq<Streams.Sending>, after: seq<Streams.Sending>, log: seq<AudioEvent>)
    requires LogExplained(before, log) && Streams.Evolves(before, after)
    ensures LogExplained(after, log)
  {
    hide HeardWhole, Transcribes, FromStream;
    forall k | 0 <= k < |log|
      ensures Explained(after, log[..k], log[k])
    {
      assert Explained(before, log[..k], log[k]);
      if log[k].Dispatched? {
        var origins, id :| FromStream(before, Samples(Hearings(log[..k])), origins, id);
        FromStreamLater(before, after, Samples(Hearings(log[..k])), origins, id);
      }
    }
  }

  lemma FromStreamLater(before: seq<Streams.Sending>, after: seq<Streams.Sending>, samples: seq<bytes>,
                        origins: seq<Streams.Tag>, id: string)
    requires FromStream(before, samples, origins, id) && Streams.Evolves(before, after)
    ensures FromStream(after, samples, origins, id)
  {
    forall k | 0 <= k < |samples|
      ensures IsChunkOf(after, samples[k], origins[k], id, k)
    {
      assert IsChunkOf(before, samples[k], origins[k], id, k);
    }
  }

  lemma ExplainOneMore(senders: seq<Streams.Sending>, log: seq<AudioEvent>, e: AudioEvent)
    requires LogExplained(senders, log) && Explained(senders, log, e)
    ensures LogExplained(senders, log + [e])
  {
    hide Explained;
    var longer := log + [e];
    forall k | 0 <= k < |longer|
      ensures Explained(senders, longer[..k], longer[k])
    {
      assert longer[..k] == log[..k];
      assert k == |log| ==> log[..k] == log;
    }
  }

  /** What a step has to show. */
  lemma Combine(s: Station, after: Station, events: seq<AudioEvent>)
    requires Inv(s) && Streams.Inv(after.audio) && Streams.Evolves(s.audio.senders, after.audio.senders)
    requires after.log == s.log + events && (events == [] || exists e :: events == [e] && Explained(s.audio.senders, s.log, e))
    requires after.bridge.attached ==>
               s.bridge.attached && after.bridge.hasDispatch && !after.bridge.dispatched && !HasDispatched(events)
    requires after.transcriber.providerClosed ==> after.consumer.closed
    requires if after.consumer.closed then after.audio.world.server.end.closed else after.bridge.attached && Tracks(after)
    ensures Inv(after)
  {
    hide Streams.Inv, Streams.Evolves, Explained, Tracks, LogExplained;
    if events == [] {
      assert after.log == s.log;
    } else {
      var e :| events == [e] && Explained(s.audio.senders, s.log, e);
      ExplainOneMore(s.audio.senders, s.log, e);
    }
    LogLater(s.audio.senders, after.audio.senders, after.log);
  }

  // ----- Every step keeps the invariant -----

  lemma AudioKept(s: Station, op: Operation)
    requires Enabled(s, Use(op)) && Streams.Inv(s.audio)
    ensures Streams.Inv(AudioNext(s, op)) && AudioNext(s, op).senders == s.audio.senders
    ensures Streams.ApartInv(s.audio) ==> Streams.ApartInv(AudioNext(s, op))
  {
    hide Streams.Inv, Streams.ApartInv, Operate, RL.CanDeliver, Streams.Next;
    var stack := StackOf(s);
    if Opening(stack, op) {
      StreamStepKept(s.audio, Streams.OpenChunk(op.frame));
      StreamStepKept(Streams.Next(s.audio, Streams.OpenChunk(op.frame)), Streams.CloseReceiver);
    } else {
      StreamStepKept(s.audio, Streams.CancelReceiver);
      StreamStepKept(Streams.Next(s.audio, Streams.CancelReceiver), Streams.CloseReceiver);
      StreamStepKept(s.audio, Streams.CloseReceiver);
    }
  }

  lemma StreamStepKept(audio: Streams.System, step: Streams.Step)
    requires Streams.Inv(audio) && Streams.Enabled(audio, step) && (step.OpenChunk? || step.CancelReceiver? || step.CloseReceiver?)
    ensures Streams.Inv(Streams.Next(audio, step)) && Streams.Next(audio, step).senders == audio.senders
    ensures Streams.ApartInv(audio) ==> Streams.ApartInv(Streams.Next(audio, step))
  {
    hide Streams.Inv, Streams.ApartInv, RL.CanDeliver;
    Streams.StepKeepsInv(audio, step);
    if Streams.ApartInv(audio) {
      Streams.StepKeepsApartInv(audio, step);
    }
  }

  lemma SameSenders(senders: seq<Streams.Sending>)
    ensures Streams.Evolves(senders, senders)
  {
  }

  /** A session that was closed stays closed. */
  lemma StaysClosed(audio: Streams.System, step: Streams.Step)
    requires Streams.Enabled(audio, step)
    ensures audio.world.server.end.closed ==> Streams.Next(audio, step).world.server.end.closed
  {
    hide RL.CanDeliver, Aad, Checked, RL.SealedUnder;
  }

  lemma ElsewhereKeeps(s: Station, step: Streams.Step)
    requires Inv(s) && Enabled(s, Elsewhere(step))
    ensures Inv(Next(s, Elsewhere(step)))
  {
    hide Streams.Inv, RL.CanDeliver, RL.Next, SealChunkIn, Streams.Enabled, HeardWhole, Transcribes, Samples, AllPartial;
    var after := Next(s, Elsewhere(step));
    Streams.StepKeepsInv(s.audio, step);
    Streams.StepEvolves(s.audio, step);
    StaysClosed(s.audio, step);
    assert after.log == s.log + [];
    Combine(s, after, []);
  }

  lemma GateKeeps(s: Station, op: Operation)
    requires Inv(s) && (op.MarkReady? || op.FailGate?)
    ensures Inv(Next(s, Use(op)))
  {
    hide Streams.Inv, RL.CanDeliver, HeardWhole, Transcribes, Samples, AllPartial;
    var after := Next(s, Use(op));
    AudioKept(s, op);
    SameSenders(s.audio.senders);
    assert after.log == s.log;
    Combine(s, after, []);
  }

  lemma BeginKeeps(s: Station, op: Operation)
    requires Inv(s) && op.Begin?
    ensures Inv(Next(s, Use(op)))
  {
    hide Streams.Inv, RL.CanDeliver, HeardWhole, Transcribes, Samples, AllPartial, Hearings, Started, LogExplained;
    var after := Next(s, Use(op));
    var events := Operate(StackOf(s), op).1;
    AudioKept(s, op);
    SameSenders(s.audio.senders);
    HearingsAppend(s.log, Begun(true, true, true));
    assert events == [] ==> after.log == s.log;
    Combine(s, after, events);
  }

  lemma CloseKeeps(s: Station)
    requires Inv(s)
    ensures Inv(Next(s, Use(CloseBridge)))
  {
    hide Streams.Inv, RL.CanDeliver, HeardWhole, Transcribes, Samples, AllPartial, LogExplained;
    var after := Next(s, Use(CloseBridge));
    AudioKept(s, CloseBridge);
    SameSenders(s.audio.senders);
    assert after.log == s.log;
    Combine(s, after, []);
  }

  lemma CancelKeeps(s: Station, op: Operation)
    requires Inv(s) && op.Cancel?
    ensures Inv(Next(s, Use(op)))
  {
    hide Streams.Inv, RL.CanDeliver, HeardWhole, Transcribes, LogExplained, Hearings, Started;
    var after := Next(s, Use(op));
    var events := Operate(StackOf(s), op).1;
    AudioKept(s, op);
    SameSenders(s.audio.senders);
    HearingsAppend(s.log, Forgot);
    assert events == [] ==> after.log == s.log;
    Combine(s, after, events);
  }

  lemma SameButBridge(s: Station, after: Station)
    requires !s.consumer.closed ==> Tracks(s)
    ensures after == s.(bridge := after.bridge) && !after.consumer.closed ==> Tracks(after)
  {
    hide HeardWhole, Transcribes, Hearings, Started, Samples, AllPartial;
  }

  lemma ConsumeKeeps(s: Station, frame: AudioFrame, answer: Answer)
    requires Inv(s) && Enabled(s, Use(Consume(frame, answer)))
    ensures Inv(Next(s, Use(Consume(frame, answer))))
  {
    hide Streams.Inv, RL.CanDeliver, RL.OpenIn, Checked, Aad, LogExplained, Tracks, BoundedText, Strip, DeliverIn;
    var op := Consume(frame, answer);
    AudioKept(s, op);
    SameSenders(s.audio.senders);
    if Opening(StackOf(s), op) && OpenChunkIn(s.audio.world.server.end, s.audio.receiver, frame).2.Success? {
      HeardKeeps(s, frame, answer);
    } else {
      var after := Next(s, Use(op));
      var events := Operate(StackOf(s), op).1;
      assert events == [] && after.log == s.log;
      SameButBridge(s, after);
      Combine(s, after, []);
    }
  }

  /** The provider is asked about every opened chunk, and what it answers is recorded. */
  lemma HeardKeeps(s: Station, frame: AudioFrame, answer: Answer)
    requires Inv(s) && Enabled(s, Use(Consume(frame, answer))) && Opening(StackOf(s), Consume(frame, answer))
    requires OpenChunkIn(s.audio.world.server.end, s.audio.receiver, frame).2.Success?
    ensures Inv(Next(s, Use(Consume(frame, answer))))
  {
    hide Streams.Inv, RL.CanDeliver, RL.Next, OpenChunkIn, LogExplained, BoundedText, Strip, Hearings, Started, Samples;
    var op := Consume(frame, answer);
    var (_, receiver, samples) := OpenChunkIn(s.audio.world.server.end, s.audio.receiver, frame);
    var after, e := Next(s, Use(op)), Heard(samples.value, receiver.finished, answer);
    AudioKept(s, op);
    SameSenders(s.audio.senders);
    HearingsAppend(s.log, e);
    SamplesAppend(Hearings(s.log), e);
    assert after.log == s.log + [e];
    assert Explained(s.audio.senders, s.log, e);
    assert after.consumer.closed ==> after.audio.world.server.end.closed by {
      hide DeliverIn;
      ReceiverAgrees(s, op);
    }
    if !after.consumer.closed {
      var heard := Hearings(s.log);
      assert (heard + [e])[..|heard|] == heard;
      assert Tracks(after);
    }
    Combine(s, after, [e]);
  }

  lemma FinalizeKeeps(s: Station, op: Operation)
    requires Inv(s) && op.Finalize?
    ensures Inv(Next(s, Use(op)))
  {
    hide Streams.Inv, RL.CanDeliver, HeardWhole, Transcribes, LogExplained, Hearings, Started, Samples, AllPartial;
    var after := Next(s, Use(op));
    var events := Operate(StackOf(s), op).1;
    AudioKept(s, op);
    SameSenders(s.audio.senders);
    assert events == [] ==> after.log == s.log;
    if events != [] {
      DispatchEarned(s, s.transcriber.transcript.value);
    }
    Combine(s, after, events);
  }

  lemma DispatchEarned(s: Station, text: string)
    requires Inv(s) && !s.consumer.closed && s.consumer.finished && s.transcriber.transcript == Some(text)
    ensures Earned(s.audio.senders, s.log, text)
  {
    hide Streams.Inv, Transcribes, LogExplained, Hearings, Started, Samples, AllPartial;
    var heard := Hearings(s.log);
    assert HeardWhole(heard, heard[|heard| - 1]);
    FinishedIsFromStream(s.audio);
  }

  lemma FinishedIsFromStream(audio: Streams.System)
    requires Streams.Inv(audio) && audio.receiver.finished
    ensures exists origins, id :: FromStream(audio.senders, audio.delivered, origins, id)
  {
    hide RL.Inv, Streams.TagsInv, Streams.SendersInv, Streams.Ordered, Streams.AllTagged, Streams.Total;
    var id := audio.receiver.streamId.value;
    forall k | 0 <= k < |audio.delivered|
      ensures IsChunkOf(audio.senders, audio.delivered[k], audio.origins[k], id, k)
    {
      assert Streams.GenuineAt(audio, k);
    }
    assert FromStream(audio.senders, audio.delivered, audio.origins, id);
  }

  lemma StepKeepsInv(s: Station, a: Action)
    requires Inv(s) && Enabled(s, a)
    ensures Inv(Next(s, a))
  {
    hide Inv, Next, Enabled;
    match a
    case Elsewhere(step) => ElsewhereKeeps(s, step);
    case Use(op) =>
      match op
      case MarkReady(_) => GateKeeps(s, op);
      case FailGate => GateKeeps(s, op);
      case Begin(_, _, _) => BeginKeeps(s, op);
      case Consume(frame, answer) => ConsumeKeeps(s, frame, answer);
      case Finalize(_) => FinalizeKeeps(s, op);
      case Cancel(_) => CancelKeeps(s, op);
      case CloseBridge => CloseKeeps(s);
  }

  lemma {:induction false} BehaviourKeepsInv(stations: seq<Station>, actions: seq<Action>, i: nat)
    requires Behaviour(stations, actions) && i < |stations|
    ensures Inv(stations[i])
  {
    hide Inv, Init, Next, Enabled;
    if i == 0 {
      InitInv(stations[0]);
    } else {
      BehaviourKeepsInv(stations, actions, i - 1);
      StepKeepsInv(stations[i - 1], actions[i - 1]);
    }
  }

  // ----- While stream ids are kept apart -----

  /** Every dispatch so far followed one sender's whole stream. */
  predicate AllWhole(senders: seq<Streams.Sending>, log: seq<AudioEvent>) {
    forall k :: 0 <= k < |log| && log[k].Dispatched? ==> IsWholeStream(senders, Samples(Hearings(log[..k])))
  }

  lemma AllWholeLater(before: seq<Streams.Sending>, after: seq<Streams.Sending>, log: seq<AudioEvent>)
    requires AllWhole(before, log) && Streams.Evolves(before, after)
    ensures AllWhole(after, log)
  {
    hide Hearings, Samples;
    forall k | 0 <= k < |log| && log[k].Dispatched?
      ensures IsWholeStream(after, Samples(Hearings(log[..k])))
    {
      var n :| 0 <= n < |before| && before[n].completed && before[n].chunks == Samples(Hearings(log[..k]));
      assert after[n].completed && after[n].chunks == before[n].chunks;
    }
  }

  lemma AllWholeOneMore(senders: seq<Streams.Sending>, log: seq<AudioEvent>, e: AudioEvent)
    requires AllWhole(senders, log) && (e.Dispatched? ==> IsWholeStream(senders, Samples(Hearings(log))))
    ensures AllWhole(senders, log + [e])
  {
    hide Hearings, Samples, IsWholeStream;
    var longer := log + [e];
    forall k | 0 <= k < |longer| && longer[k].Dispatched?
      ensures IsWholeStream(senders, Samples(Hearings(longer[..k])))
    {
      assert longer[..k] == log[..k];
      assert k == |log| ==> log[..k] == log;
    }
  }

  ghost predicate ApartInv(s: Station) {
    Inv(s) && Streams.ApartInv(s.audio) && AllWhole(s.audio.senders, s.log)
  }

  lemma FinishedIsWhole(s: Station)
    requires Inv(s) && Streams.OneSource(s.audio) && !s.consumer.closed && s.consumer.finished
    ensures IsWholeStream(s.audio.senders, Samples(Hearings(s.log)))
  {
    hide Streams.Inv, LogExplained, Hearings, Started, Samples, AllPartial;
    Streams.DeliveredFromOneStream(s.audio);
    var n :| 0 <= n < |s.audio.senders| && Streams.FromSender(s.audio, s.audio.senders[n]);
    assert s.audio.senders[n].chunks == Samples(Hearings(s.log));
  }

  lemma StepKeepsApartInv(s: Station, a: Action)
    requires ApartInv(s) && Enabled(s, a) && (a.Elsewhere? ==> Streams.FreshId(s.audio, a.step))
    ensures ApartInv(Next(s, a))
  {
    hide Inv, Streams.Inv, Streams.TookTurns, Streams.OneSource, RL.CanDeliver, AllWhole, Streams.Next, Operate;
    StepKeepsInv(s, a);
    match a
    case Elsewhere(step) =>
      Streams.StepKeepsApartInv(s.audio, step);
      Streams.StepEvolves(s.audio, step);
      AllWholeLater(s.audio.senders, Next(s, a).audio.senders, s.log);
    case Use(op) => UseKeepsWhole(s, op);
  }

  lemma UseKeepsWhole(s: Station, op: Operation)
    requires ApartInv(s) && Enabled(s, Use(op))
    ensures Streams.ApartInv(AudioNext(s, op)) && AudioNext(s, op).senders == s.audio.senders
    ensures AllWhole(s.audio.senders, s.log + Operate(StackOf(s), op).1)
  {
    hide Streams.Inv, Streams.ApartInv, RL.CanDeliver, AllWhole, Operate, Tracks, LogExplained;
    AudioKept(s, op);
    DispatchDetaches(StackOf(s), op);
    var events := Operate(StackOf(s), op).1;
    if events == [] {
      assert s.log + events == s.log;
    } else {
      assert events == [events[0]];
      if events[0].Dispatched? {
        DispatchNeedsStream(s, op);
      }
      AllWholeOneMore(s.audio.senders, s.log, events[0]);
    }
  }

  lemma DispatchNeedsStream(s: Station, op: Operation)
    requires Inv(s) && Streams.ApartInv(s.audio) && Dispatches(StackOf(s), op)
    ensures IsWholeStream(s.audio.senders, Samples(Hearings(s.log)))
  {
    hide Streams.Inv, Tracks, LogExplained, Hearings, Samples, IsWholeStream, OpenChunkIn;
    FinishedIsWhole(s);
  }

  lemma {:induction false} ApartRunKeepsInv(stations: seq<Station>, actions: seq<Action>, i: nat)
    requires Behaviour(stations, actions) && IdsKeptApart(stations, actions) && i < |stations|
    ensures ApartInv(stations[i])
  {
    hide ApartInv, Next, Enabled, Streams.FreshId;
    if i == 0 {
      InitApart(stations[0]);
    } else {
      ApartRunKeepsInv(stations, actions, i - 1);
      StepKeepsApartInv(stations[i - 1], actions[i - 1]);
    }
  }

  lemma InitApart(s: Station)
    requires Init(s)
    ensures ApartInv(s)
  {
    InitInv(s);
    Streams.InitInv(s.audio);
  }

  // ----- Over every run -----

  /**
   * Every dispatch carries the provider's transcript of a whole stream, of which it heard every chunk in order since
   * the last cancellation, after capture was opened with display, consent and secure transport. Every chunk was one of
   * a sender's with that stream id, and the last one was final.
   */
  lemma DispatchesAreEarned(stations: seq<Station>, actions: seq<Action>, i: nat, k: nat, text: string)
    requires Behaviour(stations, actions) && i < |stations|
    requires k < |stations[i].log| && stations[i].log[k] == Dispatched(text)
    ensures Earned(stations[i].audio.senders, stations[i].log[..k], text)
    ensures forall j :: 0 <= j < k && stations[i].log[j].Heard? ==> Started(stations[i].log[..j])
    ensures forall j :: 0 <= j < k && stations[i].log[j].Begun? ==> stations[i].log[j] == Begun(true, true, true)
  {
    hide Streams.Inv, Tracks, Earned, Started, Behaviour;
    BehaviourKeepsInv(stations, actions, i);
    var s := stations[i];
    assert forall j :: 0 <= j <= k ==> Explained(s.audio.senders, s.log[..j], s.log[j]);
  }

  /** While stream ids are kept apart, that stream was all of one sender's. */
  lemma DispatchesOneSender(stations: seq<Station>, actions: seq<Action>, i: nat, k: nat)
    requires Behaviour(stations, actions) && IdsKeptApart(stations, actions) && i < |stations|
    requires k < |stations[i].log| && stations[i].log[k].Dispatched?
    ensures IsWholeStream(stations[i].audio.senders, Samples(Hearings(stations[i].log[..k])))
  {
    hide Inv, Streams.ApartInv, Behaviour, IdsKeptApart, IsWholeStream;
    ApartRunKeepsInv(stations, actions, i);
  }

  /** The log of a run holds at most one dispatch. */
  lemma LogHoldsOneDispatch(stations: seq<Station>, actions: seq<Action>, i: nat, j: nat, k: nat)
    requires Behaviour(stations, actions) && i < |stations|
    requires j < |stations[i].log| && k < |stations[i].log| && stations[i].log[j].Dispatched? && stations[i].log[k].Dispatched?
    ensures j == k
  {
    hide Streams.Inv, Tracks, Earned, Behaviour;
    BehaviourKeepsInv(stations, actions, i);
    var s := stations[i];
    assert Explained(s.audio.senders, s.log[..j], s.log[j]) && Explained(s.audio.senders, s.log[..k], s.log[k]);
    assert forall m, n :: 0 <= m < n < |s.log| ==> s.log[m] in s.log[..n];
  }
}

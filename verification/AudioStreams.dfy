/**
 * Audio senders, one receiver and control records sharing one session, over an arbitrary network.
 *
 * The device (the client end) may create any number of senders; the host (the server end) owns one
 * receiver that may be cancelled and reused. The system keeps, as history, every sender's samples, which
 * sealed record carried what, and what the receiver delivered, from where, since it last forgot a stream.
 */
module AudioStreams {
  import opened Prelude
  import opened Framing
  import opened SecureAudio
  import RL = RecordLayer

  datatype Sending = Sending(state: SenderState, chunks: seq<bytes>, completed: bool, cancelled: bool)

  datatype Tag = Control | Chunk(sender: nat, index: nat)

  datatype System = System(
    world: RL.World,
    senders: seq<Sending>,
    tags: seq<Tag>,
    receiver: ReceiverState,
    delivered: seq<bytes>,
    origins: seq<Tag>)

  datatype Step =
    | NewSender(streamId: string)
    | SealChunk(sender: nat, samples: bytes, final: bool)
    | CancelSender(sender: nat)
    | SealControl(role: RL.Role, payload: bytes)
    | OpenChunk(frame: AudioFrame)
    | OpenControl(role: RL.Role, record: RL.Frame)
    | CancelReceiver
    | CloseReceiver
    | CloseSession(role: RL.Role)

  predicate Enabled(s: System, a: Step) {
    match a
    case NewSender(streamId) => Identifier(streamId, MAX_AUDIO_STREAM_ID_LENGTH)
    case SealChunk(sender, _, _) => sender < |s.senders|
    case CancelSender(sender) => sender < |s.senders|
    case OpenChunk(frame) => RL.CanDeliver(s.world, frame.record)
    case OpenControl(_, record) => RL.CanDeliver(s.world, record)
    case _ => true
  }

  function SealChunkNext(s: System, n: nat, samples: bytes, final: bool): System
    requires n < |s.senders|
  {
    var sending := s.senders[n];
    var (_, state, r) := SealChunkIn(s.world.client.end, sending.state, samples, final);
    if r.Failure? then s
    else
      var m := Metadata(sending.state.streamId, sending.state.nextChunk, final);
      s.(world := RL.Next(s.world, RL.Seal(RL.Client, samples, Aad(m))),
         senders := s.senders[n := sending.(state := state, chunks := sending.chunks + [samples], completed := final)],
         tags := s.tags + [Chunk(n, |sending.chunks|)])
  }

  /** What the next record the host opens carries. */
  function NextTag(s: System): Tag {
    var q := |s.world.server.received|;
    if q < |s.tags| then s.tags[q] else Control
  }

  function OpenChunkNext(s: System, frame: AudioFrame): System {
    var (_, receiver, r) := OpenChunkIn(s.world.server.end, s.receiver, frame);
    var checked := Checked(s.receiver, frame);
    var world := if checked.Failure? then s.world
                 else RL.Next(s.world, RL.Deliver(RL.Server, frame.record, Aad(checked.value)));
    if r.Success? then
      s.(world := world, receiver := receiver, delivered := s.delivered + [r.value], origins := s.origins + [NextTag(s)])
    else s.(world := RL.Next(world, RL.Close(RL.Server)), receiver := receiver, delivered := [], origins := [])
  }

  function Next(s: System, a: Step): System
    requires Enabled(s, a)
  {
    match a
    case NewSender(streamId) =>
      s.(senders := s.senders + [Sending(SenderState(streamId, 0, 0, false), [], false, false)])
    case SealChunk(sender, samples, final) => SealChunkNext(s, sender, samples, final)
    case CancelSender(n) => s.(senders := s.senders[n := s.senders[n].(state := CancelledSender(s.senders[n].state), cancelled := true)])
    case SealControl(role, payload) =>
      var world := RL.Next(s.world, RL.Seal(role, payload, JSON_AAD));
      s.(world := world, tags := if |world.client.sent| > |s.world.client.sent| then s.tags + [Control] else s.tags)
    case OpenChunk(frame) => OpenChunkNext(s, frame)
    case OpenControl(role, record) => s.(world := RL.Next(s.world, RL.Deliver(role, record, JSON_AAD)))
    case CancelReceiver => s.(receiver := EMPTY, delivered := [], origins := [])
    case CloseReceiver => s.(world := RL.Next(s.world, RL.Close(RL.Server)), receiver := EMPTY, delivered := [], origins := [])
    case CloseSession(role) => s.(world := RL.Next(s.world, RL.Close(role)))
  }

  /** The ends of the system are exactly what the sender and the receiver make of them. */
  lemma StepsAreTheirs(s: System, n: nat, samples: bytes, final: bool, frame: AudioFrame)
    ensures n < |s.senders| ==>
              SealChunkNext(s, n, samples, final).world.client.end ==
                SealChunkIn(s.world.client.end, s.senders[n].state, samples, final).0
    ensures OpenChunkNext(s, frame).world.server.end == OpenChunkIn(s.world.server.end, s.receiver, frame).0
    ensures OpenChunkNext(s, frame).world.client == s.world.client
  {
    hide Header, Nonce, AudioAad, Identifier;
  }

  ghost predicate Init(s: System) {
    && (exists id, m, c, v :: RL.Init(s.world, id, m, c, v))
    && s.senders == [] && s.tags == [] && s.receiver == EMPTY && s.delivered == [] && s.origins == []
  }

  ghost predicate Behaviour(systems: seq<System>, steps: seq<Step>) {
    && |systems| == |steps| + 1 && Init(systems[0])
    && forall i :: 0 <= i < |steps| ==> Enabled(systems[i], steps[i]) && systems[i + 1] == Next(systems[i], steps[i])
  }

  /** A new sender does not take the stream id of one that can still seal. The code does not see to this. */
  predicate FreshId(s: System, a: Step) {
    a.NewSender? ==> forall n :: 0 <= n < |s.senders| && s.senders[n].state.streamId == a.streamId ==> s.senders[n].state.finished
  }

  predicate IdsKeptApart(systems: seq<System>, steps: seq<Step>) {
    |systems| == |steps| + 1 && forall i :: 0 <= i < |steps| ==> FreshId(systems[i], steps[i])
  }

  // ----- The invariant -----

  predicate TagFits(senders: seq<Sending>, tag: Tag, record: RL.Record) {
    match tag
    case Control => record.data == JSON_AAD
    case Chunk(n, j) =>
      && n < |senders| && j < |senders[n].chunks|
      && record == RL.Record(senders[n].chunks[j],
           Aad(Metadata(senders[n].state.streamId, j, senders[n].completed && j + 1 == |senders[n].chunks|)))
  }

  predicate TagsInv(s: System) {
    && |s.tags| == |s.world.client.sent|
    && forall k :: 0 <= k < |s.tags| ==> TagFits(s.senders, s.tags[k], s.world.client.sent[k])
  }

  predicate SendingInv(x: Sending) {
    && Identifier(x.state.streamId, MAX_AUDIO_STREAM_ID_LENGTH)
    && SenderBounds(x.state) && |x.chunks| <= (if x.completed then MAX_AUDIO_CHUNKS else MAX_AUDIO_CHUNKS - 1)
    && (x.state.finished <==> x.completed || x.cancelled)
    && (!x.state.finished ==> x.state.nextChunk == |x.chunks|)
    && (forall c :: c in x.chunks ==> GoodSamples(c))
  }

  predicate SendersInv(s: System) {
    forall n :: 0 <= n < |s.senders| ==> SendingInv(s.senders[n])
  }

  /** Every chunk was sealed after the chunk before it. */
  predicate Ordered(tags: seq<Tag>) {
    forall k :: 0 <= k < |tags| && tags[k].Chunk? && tags[k].index > 0 ==>
      Chunk(tags[k].sender, tags[k].index - 1) in tags[..k]
  }

  predicate AllTagged(s: System) {
    forall n, j :: 0 <= n < |s.senders| && 0 <= j < |s.senders[n].chunks| ==> Chunk(n, j) in s.tags
  }

  predicate SameId(senders: seq<Sending>, n: nat, m: nat) {
    n < |senders| && m < |senders| && senders[n].state.streamId == senders[m].state.streamId
  }

  /** Chunks of two senders with the same id, the earlier sender's first. */
  predicate Rival(s: System, a: Tag, b: Tag) {
    a.Chunk? && b.Chunk? && a.sender < b.sender && SameId(s.senders, a.sender, b.sender)
  }

  /** Senders that share an id took turns. */
  predicate TookTurns(s: System) {
    && (forall n, m :: 0 <= n < m < |s.senders| && SameId(s.senders, n, m) ==> s.senders[n].state.finished)
    && (forall k, l :: 0 <= k < |s.tags| && 0 <= l < |s.tags| && Rival(s, s.tags[k], s.tags[l]) ==> k < l)
  }

  function Total(chunks: seq<bytes>): nat {
    if chunks == [] then 0 else Total(chunks[..|chunks| - 1]) + |chunks[|chunks| - 1]|
  }

  /** Delivered chunk `k` is the chunk of that index of a sender with the receiver's stream id. */
  predicate GenuineAt(s: System, k: nat) {
    && k < |s.origins| && k < |s.delivered| && s.origins[k].Chunk? && s.origins[k].index == k && s.origins[k].sender < |s.senders|
    && var x := s.senders[s.origins[k].sender];
       s.receiver.streamId == Some(x.state.streamId) && k < |x.chunks| && s.delivered[k] == x.chunks[k]
  }

  /** The chunk is the last one of a stream that its sender finished. */
  predicate IsLastChunk(senders: seq<Sending>, tag: Tag) {
    && tag.Chunk? && tag.sender < |senders|
    && senders[tag.sender].completed && tag.index + 1 == |senders[tag.sender].chunks|
  }

  /** Record `p` carried the last delivered chunk, and only control records were opened since. */
  predicate LastOpenedAt(s: System, p: nat) {
    && s.origins != [] && p < |s.world.server.received| <= |s.tags| && s.tags[p] == s.origins[|s.origins| - 1]
    && forall k :: p < k < |s.world.server.received| ==> s.tags[k].Control?
  }

  predicate Genuine(s: System) {
    && |s.origins| == |s.delivered| == s.receiver.nextChunk > 0 && Total(s.delivered) == s.receiver.streamBytes
    && (forall k :: 0 <= k < |s.delivered| ==> GenuineAt(s, k))
    && s.receiver.finished == IsLastChunk(s.senders, s.origins[|s.origins| - 1])
  }

  ghost predicate ReceiverInv(s: System) {
    && ReceiverBounds(s.receiver)
    && if s.receiver.streamId.None? then s.receiver == EMPTY && s.delivered == [] && s.origins == []
       else Genuine(s) && exists p :: LastOpenedAt(s, p)
  }

  /** What holds of every run, however stream ids are used. */
  ghost predicate Inv(s: System) {
    RL.Inv(s.world) && TagsInv(s) && SendersInv(s) && Ordered(s.tags) && AllTagged(s) && ReceiverInv(s)
  }

  /** Everything delivered came from one sender. */
  predicate OneSource(s: System) {
    forall i, j :: 0 <= i < |s.origins| && 0 <= j < |s.origins| && s.origins[i].Chunk? && s.origins[j].Chunk? ==>
      s.origins[i].sender == s.origins[j].sender
  }

  /** What holds in addition while stream ids are kept apart. */
  ghost predicate ApartInv(s: System) {
    Inv(s) && TookTurns(s) && OneSource(s)
  }

  lemma InitInv(s: System)
    requires Init(s)
    ensures ApartInv(s)
  {
    var id, m, c, v :| RL.Init(s.world, id, m, c, v);
  }

  // ----- Steps of the senders -----

  /** Samples are only added, and a completed stream is not added to. */
  predicate Evolves(before: seq<Sending>, after: seq<Sending>) {
    && |before| <= |after|
    && forall n :: 0 <= n < |before| ==>
         && before[n].state.streamId == after[n].state.streamId && before[n].chunks <= after[n].chunks
         && (|before[n].chunks| == |after[n].chunks| ==> before[n].completed == after[n].completed)
         && (|before[n].chunks| < |after[n].chunks| ==> !before[n].completed)
         && (before[n].state.finished ==> after[n].state.finished)
  }

  lemma TagStillFits(before: seq<Sending>, after: seq<Sending>, tag: Tag, record: RL.Record)
    requires Evolves(before, after) && TagFits(before, tag, record)
    requires forall n :: 0 <= n < |before| && |before[n].chunks| < |after[n].chunks| ==> !before[n].completed
    ensures TagFits(after, tag, record)
  {
    hide Aad;
    if tag.Chunk? {
      assert before[tag.sender].chunks[tag.index] == after[tag.sender].chunks[tag.index];
    }
  }

  lemma ReceiverLater(s: System, after: System)
    requires ReceiverInv(s) && Evolves(s.senders, after.senders) && s.tags <= after.tags
    requires after.receiver == s.receiver && after.delivered == s.delivered && after.origins == s.origins
    requires after.world.server.received == s.world.server.received
    ensures ReceiverInv(after)
  {
    hide LastOpenedAt, Total;
    if s.receiver.streamId.Some? {
      GenuineLater(s, after);
      var p: nat :| LastOpenedAt(s, p);
      LastOpenedLater(s, after, p);
    }
  }

  lemma GenuineLater(s: System, after: System)
    requires Genuine(s) && Evolves(s.senders, after.senders)
    requires after.receiver == s.receiver && after.delivered == s.delivered && after.origins == s.origins
    ensures Genuine(after)
  {
    assert GenuineAt(s, |s.delivered| - 1);
    forall k | 0 <= k < |s.delivered|
      ensures GenuineAt(after, k)
    {
      assert GenuineAt(s, k);
    }
  }

  lemma LastOpenedLater(s: System, after: System, p: nat)
    requires LastOpenedAt(s, p) && s.tags <= after.tags && after.origins == s.origins
    requires after.world.server.received == s.world.server.received
    ensures LastOpenedAt(after, p)
  {
  }

  /** Steps that seal nothing leave what the tags say as it is. */
  lemma TagsLater(s: System, after: System)
    requires TagsInv(s) && AllTagged(s)
    requires Evolves(s.senders, after.senders) && after.tags == s.tags && after.world == s.world
    requires forall n :: 0 <= n < |after.senders| ==> after.senders[n].chunks == if n < |s.senders| then s.senders[n].chunks else []
    ensures TagsInv(after) && AllTagged(after)
  {
    hide Aad;
    forall k | 0 <= k < |s.tags|
      ensures TagFits(after.senders, s.tags[k], s.world.client.sent[k])
    {
      TagStillFits(s.senders, after.senders, s.tags[k], s.world.client.sent[k]);
    }
  }

  lemma NewSenderKeeps(s: System, streamId: string)
    requires Inv(s) && Enabled(s, NewSender(streamId))
    ensures Inv(Next(s, NewSender(streamId)))
  {
    hide RL.Inv, Ordered, TagsInv, AllTagged, Identifier, ReceiverInv;
    var after := Next(s, NewSender(streamId));
    ReceiverLater(s, after);
    TagsLater(s, after);
  }

  lemma CancelSenderKeeps(s: System, n: nat)
    requires Inv(s) && n < |s.senders|
    ensures Inv(Next(s, CancelSender(n)))
  {
    hide RL.Inv, Ordered, TagsInv, AllTagged, Identifier, ReceiverInv;
    var after := Next(s, CancelSender(n));
    ReceiverLater(s, after);
    TagsLater(s, after);
  }

  /** A record sealed by the device adds one entry to its log and changes nothing at the host. */
  lemma SealAdds(w: RL.World, role: RL.Role, payload: bytes, data: Octets)
    requires RL.Inv(w)
    ensures var after := RL.Next(w, RL.Seal(role, payload, data));
            && RL.Inv(after) && after.server.received == w.server.received
            && (RL.SealIn(RL.At(w, role).end, payload, data).1.Success? && role == RL.Client ==>
                  after.client.sent == w.client.sent + [RL.Record(payload, data)])
            && (RL.SealIn(RL.At(w, role).end, payload, data).1.Failure? || role == RL.Server ==> after.client.sent == w.client.sent)
  {
    hide Header, Nonce;
    RL.StepKeepsInv(w, RL.Seal(role, payload, data));
  }

  lemma OrderedAppend(tags: seq<Tag>, tag: Tag)
    requires Ordered(tags) && (tag.Chunk? && tag.index > 0 ==> Chunk(tag.sender, tag.index - 1) in tags)
    ensures Ordered(tags + [tag])
  {
    var longer := tags + [tag];
    forall k | 0 <= k < |longer| && longer[k].Chunk? && longer[k].index > 0
      ensures Chunk(longer[k].sender, longer[k].index - 1) in longer[..k]
    {
      assert k < |tags| ==> longer[..k] == tags[..k];
      assert k == |tags| ==> longer[..k] == tags;
    }
  }

  lemma SealControlKeeps(s: System, role: RL.Role, payload: bytes)
    requires Inv(s)
    ensures Inv(Next(s, SealControl(role, payload)))
  {
    hide RL.Inv, RL.Next, Ordered, SendingInv, ReceiverInv, RL.SealIn, Aad;
    var after := Next(s, SealControl(role, payload));
    SealAdds(s.world, role, payload, JSON_AAD);
    OrderedAppend(s.tags, Control);
    ReceiverLater(s, after);
  }

  /** What a successful seal makes of the sender. */
  lemma SealedSending(s: System, n: nat, samples: bytes, final: bool)
    requires SendersInv(s) && n < |s.senders| && SealChunkIn(s.world.client.end, s.senders[n].state, samples, final).2.Success?
    ensures var x, y := s.senders[n], SealChunkNext(s, n, samples, final).senders[n];
            && SendingInv(y) && !x.state.finished && !x.completed && x.state.nextChunk == |x.chunks|
            && y.state.streamId == x.state.streamId && y.chunks == x.chunks + [samples] && y.completed == final
    ensures RL.SealIn(s.world.client.end, samples, Aad(Metadata(s.senders[n].state.streamId, |s.senders[n].chunks|, final))).1.Success?
  {
    hide AudioAad, RL.SealIn, Identifier, RL.Next;
    assert SendingInv(s.senders[n]);
  }

  lemma SealChunkKeeps(s: System, n: nat, samples: bytes, final: bool)
    requires Inv(s) && n < |s.senders|
    ensures Inv(SealChunkNext(s, n, samples, final))
  {
    if SealChunkIn(s.world.client.end, s.senders[n].state, samples, final).2.Success? {
      SealedChunkKeeps(s, n, samples, final);
    }
  }

  lemma SealedChunkKeeps(s: System, n: nat, samples: bytes, final: bool)
    requires Inv(s) && n < |s.senders| && SealChunkIn(s.world.client.end, s.senders[n].state, samples, final).2.Success?
    ensures Inv(SealChunkNext(s, n, samples, final))
  {
    hide RL.Inv, Ordered, RL.Next, SealChunkIn, RL.SealIn, Aad, SendingInv, RL.CanDeliver, ReceiverInv, AllTagged, TagsInv;
    var after, x := SealChunkNext(s, n, samples, final), s.senders[n];
    SealedSending(s, n, samples, final);
    SealAdds(s.world, RL.Client, samples, Aad(Metadata(x.state.streamId, |x.chunks|, final)));
    SealedTagsKeep(s, after, n, samples, final);
    ReceiverLater(s, after);
    AllTaggedLater(s, after, n);
  }

  lemma SealedTagsKeep(s: System, after: System, n: nat, samples: bytes, final: bool)
    requires TagsInv(s) && Ordered(s.tags) && AllTagged(s) && n < |s.senders| && Evolves(s.senders, after.senders)
    requires after.tags == s.tags + [Chunk(n, |s.senders[n].chunks|)]
    requires var x, y := s.senders[n], after.senders[n];
             && y.chunks == x.chunks + [samples] && y.completed == final
             && after.world.client.sent ==
                  s.world.client.sent + [RL.Record(samples, Aad(Metadata(x.state.streamId, |x.chunks|, final)))]
    ensures TagsInv(after) && Ordered(after.tags)
  {
    hide Aad, Ordered;
    OrderedAppend(s.tags, Chunk(n, |s.senders[n].chunks|));
    forall k | 0 <= k < |s.tags|
      ensures TagFits(after.senders, after.tags[k], after.world.client.sent[k])
    {
      TagStillFits(s.senders, after.senders, s.tags[k], s.world.client.sent[k]);
    }
  }

  lemma AllTaggedLater(s: System, after: System, n: nat)
    requires AllTagged(s) && n < |s.senders| == |after.senders|
    requires after.tags == s.tags + [Chunk(n, |s.senders[n].chunks|)] && |after.senders[n].chunks| == |s.senders[n].chunks| + 1
    requires forall i :: 0 <= i < |s.senders| && i != n ==> after.senders[i] == s.senders[i]
    ensures AllTagged(after)
  {
    forall i, j | 0 <= i < |after.senders| && 0 <= j < |after.senders[i].chunks|
      ensures Chunk(i, j) in after.tags
    {
      if i == n && j == |s.senders[n].chunks| {
        assert after.tags[|s.tags|] == Chunk(i, j);
      } else {
        assert Chunk(i, j) in s.tags;
      }
    }
  }

  // ----- Steps of the receiver -----

  /** Opening at the host takes the next record of the device's log, with its data. */
  lemma DeliverTakes(w: RL.World, role: RL.Role, record: RL.Frame, data: Octets)
    requires RL.Inv(w) && RL.CanDeliver(w, record)
    ensures var after := RL.Next(w, RL.Deliver(role, record, data));
            var r := RL.OpenIn(w.server.end, record, data).1;
            var n := |w.server.received|;
            && RL.Inv(after) && after.client.sent == w.client.sent
            && (role == RL.Server && r.Success? ==>
                  && |after.server.received| == n + 1 && n < |w.client.sent|
                  && w.client.sent[n] == RL.Record(r.value, data))
            && (role == RL.Client || r.Failure? ==> after.server.received == w.server.received)
  {
    hide Header, Nonce, RL.CanDeliver, RL.OpenIn;
    RL.StepKeepsInv(w, RL.Deliver(role, record, data));
    RL.OpensExactlyTheNext(w, role, record, data);
  }

  lemma CloseTakesNothing(w: RL.World, role: RL.Role)
    requires RL.Inv(w)
    ensures var after := RL.Next(w, RL.Close(role));
            RL.Inv(after) && after.client.sent == w.client.sent && after.server.received == w.server.received
  {
    RL.StepKeepsInv(w, RL.Close(role));
  }

  /** Only the host's side changed. */
  lemma SameSideKeeps(s: System, after: System)
    requires Inv(s) && RL.Inv(after.world) && after.world.client.sent == s.world.client.sent
    requires after.senders == s.senders && after.tags == s.tags && ReceiverInv(after)
    ensures Inv(after)
  {
    hide RL.Inv, Ordered, TagFits, SendingInv, ReceiverInv;
  }

  lemma OpenControlKeeps(s: System, role: RL.Role, record: RL.Frame)
    requires Inv(s) && RL.CanDeliver(s.world, record)
    ensures Inv(Next(s, OpenControl(role, record)))
  {
    hide RL.Inv, RL.Next, RL.OpenIn, RL.CanDeliver, LastOpenedAt, Genuine, SendersInv, Ordered, AllTagged, Aad;
    var after := Next(s, OpenControl(role, record));
    DeliverTakes(s.world, role, record, JSON_AAD);
    if s.receiver.streamId.Some? {
      var p: nat :| LastOpenedAt(s, p);
      if after.world.server.received != s.world.server.received {
        ControlIsTagged(s, |s.world.server.received|);
      }
      LastOpenedPastControl(s, after, p);
      GenuineLater(s, after);
    }
    SameSideKeeps(s, after);
  }

  lemma ControlIsTagged(s: System, q: nat)
    requires TagsInv(s) && q < |s.tags| && s.world.client.sent[q].data == JSON_AAD
    ensures s.tags[q].Control?
  {
    hide AudioAad;
    assert TagFits(s.senders, s.tags[q], s.world.client.sent[q]);
    forall m: Metadata
      ensures Aad(m) != JSON_AAD
    {
      AudioIsNotJson(m.streamId, m.index, m.final);
    }
  }

  lemma LastOpenedPastControl(s: System, after: System, p: nat)
    requires LastOpenedAt(s, p) && after.tags == s.tags && after.origins == s.origins
    requires var q, q' := |s.world.server.received|, |after.world.server.received|;
             q' == q || (q' == q + 1 && q < |s.tags| && s.tags[q].Control?)
    ensures LastOpenedAt(after, p)
  {
  }

  /** An opened audio record is the chunk it claims to be, of a sender with the id it claims. */
  lemma AudioIsTagged(s: System, q: nat, m: Metadata, samples: bytes)
    requires TagsInv(s) && SendersInv(s) && q < |s.tags| && s.world.client.sent[q] == RL.Record(samples, Aad(m))
    requires Identifier(m.streamId, MAX_AUDIO_STREAM_ID_LENGTH)
    ensures s.tags[q].Chunk? && s.tags[q].index == m.index && s.tags[q].sender < |s.senders|
    ensures var x := s.senders[s.tags[q].sender];
            && x.state.streamId == m.streamId && m.index < |x.chunks| && x.chunks[m.index] == samples
            && m.final == (x.completed && m.index + 1 == |x.chunks|)
  {
    hide AudioAad;
    assert TagFits(s.senders, s.tags[q], s.world.client.sent[q]);
    AudioIsNotJson(m.streamId, m.index, m.final);
    if s.tags[q].Chunk? {
      var x, j := s.senders[s.tags[q].sender], s.tags[q].index;
      assert SendingInv(x);
      AudioAadDecodes(m.streamId, m.index, m.final, x.state.streamId, j, x.completed && j + 1 == |x.chunks|);
    }
  }

  /** What one delivered chunk adds. */
  lemma OpenedChunk(s: System, frame: AudioFrame)
    requires Inv(s) && RL.CanDeliver(s.world, frame.record)
    requires OpenChunkIn(s.world.server.end, s.receiver, frame).2.Success?
    ensures var after, tag := OpenChunkNext(s, frame), NextTag(s);
            var samples := OpenChunkIn(s.world.server.end, s.receiver, frame).2.value;
            && |s.world.server.received| < |s.tags| && |after.world.server.received| == |s.world.server.received| + 1
            && tag.Chunk? && tag.index == s.receiver.nextChunk && tag.sender < |s.senders|
            && var x := s.senders[tag.sender];
               && (s.receiver.streamId.None? || s.receiver.streamId == Some(x.state.streamId))
               && tag.index < |x.chunks| && x.chunks[tag.index] == samples
               && after.receiver == ReceiverState(Some(x.state.streamId), s.receiver.nextChunk + 1,
                                                  s.receiver.streamBytes + |samples|, IsLastChunk(s.senders, tag))
  {
    hide RL.Inv, RL.Next, RL.OpenIn, RL.CanDeliver, SendingInv, SendersInv, TagFits, AllTagged, Aad, Identifier, Ordered, ReceiverInv;
    var m := Checked(s.receiver, frame).value;
    DeliverTakes(s.world, RL.Server, frame.record, Aad(m));
    AudioIsTagged(s, |s.world.server.received|, m, OpenChunkIn(s.world.server.end, s.receiver, frame).2.value);
  }

  lemma OpenChunkDelivers(s: System, frame: AudioFrame)
    requires Inv(s) && RL.CanDeliver(s.world, frame.record)
    requires OpenChunkIn(s.world.server.end, s.receiver, frame).2.Success?
    ensures ReceiverInv(OpenChunkNext(s, frame))
  {
    hide RL.Inv, RL.Next, RL.CanDeliver, OpenChunkIn, Checked, SendersInv, TagsInv, AllTagged, Ordered, Total, IsLastChunk;
    var after, q := OpenChunkNext(s, frame), |s.world.server.received|;
    ReceiverStaysInBounds(s.world.server.end, s.receiver, frame);
    OpenedChunk(s, frame);
    NothingDelivered();
    assert after.delivered[..|s.delivered|] == s.delivered;
    TotalAppend(s.delivered, OpenChunkIn(s.world.server.end, s.receiver, frame).2.value);
    forall k | 0 <= k < |after.delivered|
      ensures GenuineAt(after, k)
    {
      if k < |s.delivered| {
        assert GenuineAt(s, k);
      }
    }
    assert LastOpenedAt(after, q);
  }

  lemma TotalAppend(chunks: seq<bytes>, samples: bytes)
    ensures Total(chunks + [samples]) == Total(chunks) + |samples|
  {
    assert (chunks + [samples])[..|chunks|] == chunks;
  }

  lemma OpenChunkKeeps(s: System, frame: AudioFrame)
    requires Inv(s) && RL.CanDeliver(s.world, frame.record)
    ensures Inv(OpenChunkNext(s, frame))
  {
    hide RL.Inv, RL.Next, RL.OpenIn, RL.CanDeliver, Checked, SendersInv, Ordered, AllTagged, Aad, TagsInv, LastOpenedAt, Genuine;
    var after, checked := OpenChunkNext(s, frame), Checked(s.receiver, frame);
    if checked.Success? {
      DeliverTakes(s.world, RL.Server, frame.record, Aad(checked.value));
    }
    if OpenChunkIn(s.world.server.end, s.receiver, frame).2.Success? {
      OpenChunkDelivers(s, frame);
    } else {
      var world := if checked.Failure? then s.world
                   else RL.Next(s.world, RL.Deliver(RL.Server, frame.record, Aad(checked.value)));
      CloseTakesNothing(world, RL.Server);
    }
    SameSideKeeps(s, after);
  }

  lemma CloseSessionKeeps(s: System, role: RL.Role)
    requires Inv(s)
    ensures Inv(Next(s, CloseSession(role)))
  {
    hide RL.Inv, RL.Next, ReceiverInv, TagsInv, SendersInv, Ordered, AllTagged;
    var after := Next(s, CloseSession(role));
    CloseTakesNothing(s.world, role);
    ReceiverLater(s, after);
    SameSideKeeps(s, after);
  }

  lemma ForgetKeeps(s: System, a: Step)
    requires Inv(s) && (a.CancelReceiver? || a.CloseReceiver?)
    ensures Inv(Next(s, a))
  {
    hide RL.Inv, RL.Next, TagsInv, SendersInv, Ordered, AllTagged, Genuine, LastOpenedAt;
    CloseTakesNothing(s.world, RL.Server);
    SameSideKeeps(s, Next(s, a));
  }

  /** However stream ids are used. */
  lemma StepKeepsInv(s: System, a: Step)
    requires Inv(s) && Enabled(s, a)
    ensures Inv(Next(s, a))
  {
    hide Inv, RL.Next, RL.CanDeliver, OpenChunkNext, SealChunkNext, Identifier;
    match a
    case NewSender(streamId) => NewSenderKeeps(s, streamId);
    case SealChunk(sender, samples, final) => SealChunkKeeps(s, sender, samples, final);
    case CancelSender(sender) => CancelSenderKeeps(s, sender);
    case SealControl(role, payload) => SealControlKeeps(s, role, payload);
    case OpenChunk(frame) => OpenChunkKeeps(s, frame);
    case OpenControl(role, record) => OpenControlKeeps(s, role, record);
    case CancelReceiver => ForgetKeeps(s, a);
    case CloseReceiver => ForgetKeeps(s, a);
    case CloseSession(role) => CloseSessionKeeps(s, role);
  }

  lemma {:induction false} BehaviourKeepsInv(systems: seq<System>, steps: seq<Step>, i: nat)
    requires Behaviour(systems, steps) && i < |systems|
    ensures Inv(systems[i])
  {
    hide Inv, Init, Next, Enabled;
    if i == 0 {
      InitInv(systems[0]);
    } else {
      BehaviourKeepsInv(systems, steps, i - 1);
      StepKeepsInv(systems[i - 1], steps[i - 1]);
    }
  }

  // ----- While stream ids are kept apart -----

  /** Chunk `j + 1` opened right after chunk `j` of sender `n`, up to control records, is `n`'s too. */
  lemma SameSender(s: System, n: nat, p: nat, q: nat)
    requires Ordered(s.tags) && TookTurns(s) && p < q < |s.tags|
    requires s.tags[p].Chunk? && s.tags[p].sender == n
    requires forall k :: p < k < q ==> s.tags[k].Control?
    requires s.tags[q].Chunk? && s.tags[q].index == s.tags[p].index + 1 && SameId(s.senders, n, s.tags[q].sender)
    ensures s.tags[q].sender == n
  {
    var m := s.tags[q].sender;
    assert Chunk(m, s.tags[p].index) in s.tags[..q];
    var k :| 0 <= k < q && s.tags[k] == Chunk(m, s.tags[p].index);
    assert k <= p;
    assert m < n ==> Rival(s, s.tags[q], s.tags[p]);
    assert n < m ==> Rival(s, s.tags[p], s.tags[k]);
  }

  lemma TurnsLater(s: System, after: System, n: nat, j: nat)
    requires TagsInv(s) && TookTurns(s) && n < |s.senders| && !s.senders[n].state.finished
    requires |after.senders| == |s.senders| && after.tags == s.tags + [Chunk(n, j)]
    requires after.senders[n].state.streamId == s.senders[n].state.streamId
    requires forall i :: 0 <= i < |s.senders| && i != n ==> after.senders[i] == s.senders[i]
    ensures TookTurns(after)
  {
    hide Aad;
    assert forall k, l :: SameId(after.senders, k, l) <==> SameId(s.senders, k, l);
    forall k, l | 0 <= k < |after.tags| && 0 <= l < |after.tags| && Rival(after, after.tags[k], after.tags[l])
      ensures k < l
    {
      assert l < |s.tags| ==> TagFits(s.senders, s.tags[l], s.world.client.sent[l]);
    }
  }

  lemma TurnsSame(s: System, after: System)
    requires TagsInv(s) && TookTurns(s) && Evolves(s.senders, after.senders)
    requires after.tags == s.tags || after.tags == s.tags + [Control]
    requires forall n, m :: 0 <= n < m < |after.senders| && SameId(after.senders, n, m) ==> after.senders[n].state.finished
    ensures TookTurns(after)
  {
    hide Aad;
    assert forall k :: 0 <= k < |s.tags| ==> TagFits(s.senders, s.tags[k], s.world.client.sent[k]);
    forall k, l | 0 <= k < |after.tags| && 0 <= l < |after.tags| && Rival(after, after.tags[k], after.tags[l])
      ensures k < l
    {
      assert Rival(s, s.tags[k], s.tags[l]);
    }
  }

  lemma FewerIds(s: System, after: System)
    requires TookTurns(s) && Evolves(s.senders, after.senders)
    requires |after.senders| == |s.senders| ||
             (|after.senders| == |s.senders| + 1 && FreshId(s, NewSender(after.senders[|s.senders|].state.streamId)))
    ensures forall n, m :: 0 <= n < m < |after.senders| && SameId(after.senders, n, m) ==> after.senders[n].state.finished
  {
    assert forall n: nat, m: nat :: m < |s.senders| && n < m && SameId(after.senders, n, m) ==> SameId(s.senders, n, m);
  }

  lemma StepKeepsTurns(s: System, a: Step)
    requires Inv(s) && TookTurns(s) && Enabled(s, a) && FreshId(s, a)
    ensures TookTurns(Next(s, a))
  {
    hide RL.Inv, RL.Next, RL.CanDeliver, TagsInv, ReceiverInv, Ordered, AllTagged, Identifier, OpenChunkIn, SealChunkIn, SendersInv,
         TookTurns;
    var after := Next(s, a);
    StepEvolves(s, a);
    if a.SealChunk? && SealChunkIn(s.world.client.end, s.senders[a.sender].state, a.samples, a.final).2.Success? {
      SealedSending(s, a.sender, a.samples, a.final);
      TurnsLater(s, after, a.sender, |s.senders[a.sender].chunks|);
    } else {
      FewerIds(s, after);
      TurnsSame(s, after);
    }
  }

  lemma StepKeepsSource(s: System, a: Step)
    requires ApartInv(s) && Enabled(s, a)
    ensures OneSource(Next(s, a))
  {
    hide RL.Inv, RL.Next, RL.CanDeliver, TagsInv, Ordered, AllTagged, Identifier, OpenChunkIn, SealChunkIn, SendersInv, TookTurns, Total;
    if a.OpenChunk? && OpenChunkIn(s.world.server.end, s.receiver, a.frame).2.Success? {
      OpenedChunk(s, a.frame);
      if s.receiver.streamId.Some? {
        var p: nat :| LastOpenedAt(s, p);
        var last := |s.origins| - 1;
        assert GenuineAt(s, last);
        SameSender(s, s.origins[last].sender, p, |s.world.server.received|);
      }
    }
  }

  lemma {:induction false} ApartRunKeepsInv(systems: seq<System>, steps: seq<Step>, i: nat)
    requires Behaviour(systems, steps) && IdsKeptApart(systems, steps) && i < |systems|
    ensures ApartInv(systems[i])
  {
    hide Inv, TookTurns, OneSource, Init, Next, Enabled, FreshId;
    if i == 0 {
      InitInv(systems[0]);
    } else {
      ApartRunKeepsInv(systems, steps, i - 1);
      StepKeepsApartInv(systems[i - 1], steps[i - 1]);
    }
  }

  lemma StepKeepsApartInv(s: System, a: Step)
    requires ApartInv(s) && Enabled(s, a) && FreshId(s, a)
    ensures ApartInv(Next(s, a))
  {
    hide Inv, TookTurns, OneSource, Next, Enabled, FreshId;
    StepKeepsInv(s, a);
    StepKeepsTurns(s, a);
    StepKeepsSource(s, a);
  }

  // ----- Over every run -----

  /**
   * However stream ids are used, every delivered chunk is the chunk of its index of some sender with the stream's id,
   * the stream is reported complete exactly when the last of them was that sender's final chunk, and the count is right.
   */
  lemma DeliveredChunksAreGenuine(systems: seq<System>, steps: seq<Step>, i: nat)
    requires Behaviour(systems, steps) && i < |systems|
    ensures var s := systems[i];
            && s.receiver.streamBytes == Total(s.delivered) <= MAX_AUDIO_STREAM_BYTES
            && |s.origins| == |s.delivered| && (forall k :: 0 <= k < |s.delivered| ==> GenuineAt(s, k))
            && (s.receiver.finished <==> s.origins != [] && IsLastChunk(s.senders, s.origins[|s.origins| - 1]))
  {
    hide Init, Next, Enabled, RL.Inv, TagsInv, SendersInv, Ordered, AllTagged, Behaviour, Total;
    BehaviourKeepsInv(systems, steps, i);
    NothingDelivered();
  }

  /** While ids are kept apart, what was delivered is a beginning of one sender's samples, and all of them once complete. */
  lemma DeliveredIsPrefixOfOneStream(systems: seq<System>, steps: seq<Step>, i: nat)
    requires Behaviour(systems, steps) && IdsKeptApart(systems, steps) && i < |systems|
    requires systems[i].delivered != [] || systems[i].receiver.finished
    ensures exists n :: 0 <= n < |systems[i].senders| && FromSender(systems[i], systems[i].senders[n])
  {
    hide Inv, TookTurns, OneSource, Behaviour, IdsKeptApart, FromSender;
    ApartRunKeepsInv(systems, steps, i);
    DeliveredFromOneStream(systems[i]);
  }

  lemma DeliveredFromOneStream(s: System)
    requires Inv(s) && OneSource(s) && (s.delivered != [] || s.receiver.finished)
    ensures exists n :: 0 <= n < |s.senders| && FromSender(s, s.senders[n])
  {
    hide RL.Inv, TagsInv, SendersInv, Ordered, AllTagged, Total;
    assert GenuineAt(s, 0) && GenuineAt(s, |s.delivered| - 1);
    var n := s.origins[0].sender;
    forall k | 0 <= k < |s.delivered|
      ensures k < |s.senders[n].chunks| && s.delivered[k] == s.senders[n].chunks[k]
    {
      assert GenuineAt(s, k);
    }
    assert s.delivered <= s.senders[n].chunks;
    assert FromSender(s, s.senders[n]);
  }

  /** Sealing, the only step that adds samples, needs an unfinished sender. */
  lemma StepEvolves(s: System, a: Step)
    requires Inv(s) && Enabled(s, a)
    ensures Evolves(s.senders, Next(s, a).senders)
  {
    hide RL.Inv, RL.Next, RL.CanDeliver, TagsInv, ReceiverInv, Ordered, AllTagged, Identifier, OpenChunkIn, SealChunkIn;
    if a.SealChunk? && SealChunkIn(s.world.client.end, s.senders[a.sender].state, a.samples, a.final).2.Success? {
      SealedSending(s, a.sender, a.samples, a.final);
    }
  }

  lemma NothingDelivered()
    ensures Total([]) == 0
  {
  }

  predicate FromSender(s: System, x: Sending) {
    && s.receiver.streamId == Some(x.state.streamId) && s.delivered <= x.chunks
    && (s.receiver.finished <==> x.completed && s.delivered == x.chunks)
  }

  /** The receiver delivers exactly the chunk that is in its turn, and with the samples the sender was given. */
  lemma DeliversExactlyTheNext(systems: seq<System>, steps: seq<Step>, i: nat, frame: AudioFrame)
    requires Behaviour(systems, steps) && i < |systems| && RL.CanDeliver(systems[i].world, frame.record)
    ensures var s := systems[i];
            var r := OpenChunkIn(s.world.server.end, s.receiver, frame).2;
            && (r.Success? <==> IsNextChunk(s, frame))
            && (r.Success? ==> var tag := s.tags[|s.world.server.received|]; r.value == s.senders[tag.sender].chunks[tag.index])
  {
    hide Behaviour, Inv, IsNextChunk, OpenChunkIn, RL.CanDeliver;
    BehaviourKeepsInv(systems, steps, i);
    ChunkOpensExactly(systems[i], frame);
  }

  lemma ChunkOpensExactly(s: System, frame: AudioFrame)
    requires Inv(s) && RL.CanDeliver(s.world, frame.record)
    ensures var r := OpenChunkIn(s.world.server.end, s.receiver, frame).2;
            && (r.Success? <==> IsNextChunk(s, frame))
            && (r.Success? ==> var tag := s.tags[|s.world.server.received|]; r.value == s.senders[tag.sender].chunks[tag.index])
  {
    hide RL.Inv, TagsInv, SendersInv, Ordered, AllTagged, ReceiverInv, RL.OpenIn, AudioAad, RL.CanDeliver, IsNextChunk;
    if OpenChunkIn(s.world.server.end, s.receiver, frame).2.Success? {
      OpenedIsNextChunk(s, frame);
    }
    if IsNextChunk(s, frame) {
      NextChunkOpens(s, frame);
    }
  }

  lemma OpenedIsNextChunk(s: System, frame: AudioFrame)
    requires Inv(s) && RL.CanDeliver(s.world, frame.record)
    requires OpenChunkIn(s.world.server.end, s.receiver, frame).2.Success?
    ensures IsNextChunk(s, frame)
  {
    hide TagFits, SendersInv, Ordered, AllTagged, ReceiverInv, RL.OpenIn, AudioAad, RL.CanDeliver, Identifier, OpenChunkNext;
    OpenedChunk(s, frame);
    var m := Checked(s.receiver, frame).value;
    AudioIsTagged(s, |s.world.server.received|, m, OpenChunkIn(s.world.server.end, s.receiver, frame).2.value)
      by { DeliverTakes(s.world, RL.Server, frame.record, Aad(m)); }
    RL.OpensExactlyTheNext(s.world, RL.Server, frame.record, Aad(m));
    assert frame.metadata == RawOf(m);
  }

  lemma NextChunkOpens(s: System, frame: AudioFrame)
    requires Inv(s) && IsNextChunk(s, frame)
    ensures RL.CanDeliver(s.world, frame.record)
    ensures var tag := s.tags[|s.world.server.received|];
            OpenChunkIn(s.world.server.end, s.receiver, frame).2 == Success(s.senders[tag.sender].chunks[tag.index])
  {
    hide RL.Inv, Ordered, AllTagged, Genuine, LastOpenedAt, RL.OpenIn, AudioAad, Identifier;
    var m, q := Validated(frame.metadata).value, |s.world.server.received|;
    assert TagFits(s.senders, s.tags[q], s.world.client.sent[q]);
    assert SendingInv(s.senders[s.tags[q].sender]);
    assert s.world.client.wire[q] in s.world.client.wire;
    RL.OpensExactlyTheNext(s.world, RL.Server, frame.record, Aad(m));
    ReceiverStaysInBounds(s.world.server.end, s.receiver, frame);
  }

  /** The frame of the next record, when that is a chunk and the receiver waits for it. */
  predicate IsNextChunk(s: System, frame: AudioFrame) {
    var q := |s.world.server.received|;
    && q < |s.tags| && |s.tags| == |s.world.client.wire| && s.tags[q].Chunk? && s.tags[q].sender < |s.senders|
    && !s.world.server.end.closed && q < s.world.server.end.sequences
    && !s.receiver.finished && s.tags[q].index == s.receiver.nextChunk
    && var x, j := s.senders[s.tags[q].sender], s.tags[q].index;
       && (s.receiver.streamId.None? || s.receiver.streamId == Some(x.state.streamId))
       && j < |x.chunks|
       && frame == AudioFrame(true, RawOf(Metadata(x.state.streamId, j, x.completed && j + 1 == |x.chunks|)),
                              RL.FrameFor(s.world.client.end, q, s.world.client.wire[q]))
  }

  /**
   * A sender seals exactly while its stream is neither finished nor cancelled, good samples only, the 64th chunk only as
   * the last, on an open session with a sequence number left; the frame says what was sealed and where in the stream.
   */
  lemma SealsExactly(systems: seq<System>, steps: seq<Step>, i: nat, n: nat, samples: bytes, final: bool)
    requires Behaviour(systems, steps) && i < |systems| && n < |systems[i].senders|
    ensures var s := systems[i];
            var x, r := s.senders[n], SealChunkIn(s.world.client.end, s.senders[n].state, samples, final).2;
            && (r.Success? <==>
                  && !x.completed && !x.cancelled && 0 < |samples| <= 4096 && |samples| % 2 == 0
                  && |x.chunks| < 64 && (|x.chunks| == 63 ==> final)
                  && !s.world.client.end.closed && |s.world.client.sent| < s.world.client.end.sequences)
            && (r.Success? ==>
                  && r.value.exactFields && r.value.metadata == RawOf(Metadata(x.state.streamId, |x.chunks|, final))
                  && r.value.record.sequence == Some(|s.world.client.sent|)
                  && SealChunkNext(s, n, samples, final).world.client.sent ==
                       s.world.client.sent + [RL.Record(samples, Aad(Metadata(x.state.streamId, |x.chunks|, final)))])
  {
    hide Behaviour, RL.Inv, AudioAad, Header, Nonce, TagsInv, Ordered, AllTagged, ReceiverInv;
    BehaviourKeepsInv(systems, steps, i);
    var s := systems[i];
    assert SendingInv(s.senders[n]);
    assert RL.SenderInv(s.world.client) by { WorldSender(s.world); }
    if |s.senders[n].chunks| < 64 {
      AadFits(Metadata(s.senders[n].state.streamId, |s.senders[n].chunks|, final));
    }
  }

  lemma WorldSender(w: RL.World)
    requires RL.Inv(w)
    ensures RL.SenderInv(w.client)
  {
  }

  predicate Rejects(s: System, a: Step) {
    a.OpenChunk? && OpenChunkIn(s.world.server.end, s.receiver, a.frame).2.Failure?
  }

  /** After one rejected frame no chunk is delivered again on the session. */
  lemma NothingAfterRejection(systems: seq<System>, steps: seq<Step>, i: nat, j: nat)
    requires Behaviour(systems, steps) && i < j < |steps|
    requires Rejects(systems[i], steps[i])
    ensures steps[j].OpenChunk? ==> Rejects(systems[j], steps[j])
    ensures systems[j + 1].delivered == []
  {
    hide RL.CanDeliver, Aad, Checked, RL.SealIn;
    StaysClosed(systems, steps, i, j);
  }

  lemma {:induction false} StaysClosed(systems: seq<System>, steps: seq<Step>, i: nat, j: nat)
    requires Behaviour(systems, steps) && i < j < |systems|
    requires Rejects(systems[i], steps[i])
    ensures systems[j].world.server.end.closed && systems[j].delivered == []
  {
    hide RL.CanDeliver, Aad, Checked, Header, Nonce, Identifier;
    if j > i + 1 {
      StaysClosed(systems, steps, i, j - 1);
    }
  }

  // ----- Reusing a stream id -----

  /** Steps one after the other, none of which reuses an id too early. */
  ghost predicate LeadsApart(s: System, steps: seq<Step>, t: System)
    decreases |steps|
  {
    if steps == [] then s == t
    else Enabled(s, steps[0]) && FreshId(s, steps[0]) && LeadsApart(Next(s, steps[0]), steps[1..], t)
  }

  lemma LeadsOne(s: System, a: Step)
    requires Enabled(s, a) && FreshId(s, a)
    ensures LeadsApart(s, [a], Next(s, a))
  {
    hide Enabled, FreshId, Next;
    assert [a][1..] == [];
  }

  lemma {:induction false} LeadsOn(s: System, steps: seq<Step>, t: System, more: seq<Step>, u: System)
    requires LeadsApart(s, steps, t) && LeadsApart(t, more, u)
    ensures LeadsApart(s, steps + more, u)
    decreases |steps|
  {
    hide Enabled, FreshId, Next;
    if steps == [] {
      assert steps + more == more;
    } else {
      assert (steps + more)[1..] == steps[1..] + more;
      LeadsOn(Next(s, steps[0]), steps[1..], t, more, u);
    }
  }

  lemma {:induction false} ApartRunsStayApart(s: System, steps: seq<Step>, t: System)
    requires ApartInv(s) && LeadsApart(s, steps, t)
    ensures ApartInv(t)
    decreases |steps|
  {
    hide ApartInv, Enabled, FreshId, Next;
    if steps != [] {
      StepKeepsApartInv(s, steps[0]);
      ApartRunsStayApart(Next(s, steps[0]), steps[1..], t);
    }
  }

  /** A stream is reported complete although its chunks came from different senders. */
  predicate Mixed(s: System) {
    s.receiver.finished && !OneSource(s)
  }

  /** Both ends are open, everything sealed was opened, and `room` sequence numbers are left. */
  predicate CaughtUp(s: System, room: nat) {
    var c, v := s.world.client, s.world.server;
    && !c.end.closed && !v.end.closed && |v.received| == |c.sent|
    && |c.sent| + room <= c.end.sequences && |c.sent| + room <= v.end.sequences
  }

  /** The receiver waits for exactly the next chunk of sender `n`. */
  predicate WaitsFor(s: System, n: nat) {
    && n < |s.senders| && !s.senders[n].state.finished && !s.receiver.finished
    && s.receiver.nextChunk == |s.senders[n].chunks|
    && (s.receiver.streamId.None? || s.receiver.streamId == Some(s.senders[n].state.streamId))
  }

  function Longer(x: Sending, samples: bytes, final: bool): Sending {
    x.(state := SenderState(x.state.streamId, x.state.nextChunk + 1, x.state.streamBytes + |samples|, final),
       chunks := x.chunks + [samples], completed := final)
  }

  /** Sender `n` seals one chunk and the receiver delivers it. */
  function Delivered(s: System, t: System, n: nat, samples: bytes, final: bool): bool
    requires n < |s.senders|
  {
    && t.senders == s.senders[n := Longer(s.senders[n], samples, final)]
    && t.delivered == s.delivered + [samples] && t.origins == s.origins + [Chunk(n, |s.senders[n].chunks|)]
    && t.receiver.streamId == Some(s.senders[n].state.streamId) && t.receiver.nextChunk == s.receiver.nextChunk + 1
    && t.receiver.finished == final
  }

  lemma AadFits(m: Metadata)
    requires |m.streamId| <= MAX_AUDIO_STREAM_ID_LENGTH && m.index < 100
    ensures |Aad(m)| <= RL.MAX_ADDITIONAL_DATA_BYTES
  {
    assert |Decimal(m.index / 10)| == 1;
    assert |Decimal(m.index)| <= 2;
    assert |FinalText(m.final)| <= 5;
  }

  lemma SealWorks(s: System, n: nat, samples: bytes, final: bool)
    requires Inv(s) && CaughtUp(s, 1) && n < |s.senders| && !s.senders[n].state.finished && GoodSamples(samples)
    requires |s.senders[n].chunks| == MAX_AUDIO_CHUNKS - 1 ==> final
    ensures var x, t := s.senders[n], SealChunkNext(s, n, samples, final);
            && x.state.nextChunk == |x.chunks|
            && t.senders == s.senders[n := Longer(x, samples, final)] && t.tags == s.tags + [Chunk(n, |x.chunks|)]
            && t.receiver == s.receiver && t.delivered == s.delivered && t.origins == s.origins
            && t.world.server == s.world.server && |t.world.client.sent| == |s.world.client.sent| + 1
            && !t.world.client.end.closed && t.world.client.end.sequences == s.world.client.end.sequences
  {
    hide Header, Nonce, AudioAad, TagsInv, Ordered, AllTagged, ReceiverInv;
    var x := s.senders[n];
    assert SendingInv(x);
    AadFits(Metadata(x.state.streamId, x.state.nextChunk, final));
  }

  /** The frame of the next record, when that is a chunk. */
  function NextFrame(s: System): AudioFrame
    requires var q := |s.world.server.received|;
             q < |s.tags| && q < |s.world.client.wire| && s.tags[q].Chunk? && s.tags[q].sender < |s.senders|
  {
    var q := |s.world.server.received|;
    var x, j := s.senders[s.tags[q].sender], s.tags[q].index;
    AudioFrame(true, RawOf(Metadata(x.state.streamId, j, x.completed && j + 1 == |x.chunks|)),
               RL.FrameFor(s.world.client.end, q, s.world.client.wire[q]))
  }

  /** The host's side of sending one chunk. */
  lemma OpenWorks(s: System)
    requires Inv(s) && |s.world.server.received| + 1 == |s.world.client.sent| <= s.world.server.end.sequences
    requires !s.world.server.end.closed && NextTag(s).Chunk? && NextTag(s).sender < |s.senders|
    requires var x, j := s.senders[NextTag(s).sender], NextTag(s).index;
             && j < |x.chunks| && j == s.receiver.nextChunk && !s.receiver.finished
             && (s.receiver.streamId.None? || s.receiver.streamId == Some(x.state.streamId))
    ensures |s.world.client.wire| == |s.tags| == |s.world.client.sent|
    ensures var x, j, t := s.senders[NextTag(s).sender], NextTag(s).index, OpenChunkNext(s, NextFrame(s));
            && Enabled(s, OpenChunk(NextFrame(s))) && IsNextChunk(s, NextFrame(s))
            && t.senders == s.senders && t.world.client == s.world.client
            && t.delivered == s.delivered + [x.chunks[j]] && t.origins == s.origins + [NextTag(s)]
            && t.receiver.streamId == Some(x.state.streamId) && t.receiver.nextChunk == s.receiver.nextChunk + 1
            && t.receiver.finished == IsLastChunk(s.senders, NextTag(s))
            && |t.world.server.received| == |t.world.client.sent|
            && !t.world.server.end.closed && t.world.server.end.sequences == s.world.server.end.sequences
  {
    hide Header, Nonce, AudioAad, Ordered, AllTagged, ReceiverInv, TagFits, SendingInv, RL.CanDeliver, Total;
    var frame := NextFrame(s);
    assert IsNextChunk(s, frame);
    NextChunkOpens(s, frame);
    OpenedChunk(s, frame);
  }

  /** One chunk, sealed and at once delivered. */
  lemma SendOne(s: System, n: nat, samples: bytes, final: bool, room: nat) returns (steps: seq<Step>, t: System)
    requires Inv(s) && CaughtUp(s, room + 1) && WaitsFor(s, n) && GoodSamples(samples)
    requires |s.senders[n].chunks| == MAX_AUDIO_CHUNKS - 1 ==> final
    ensures LeadsApart(s, steps, t) && Inv(t) && CaughtUp(t, room) && Delivered(s, t, n, samples, final)
  {
    hide Inv, Enabled, SealChunkNext, OpenChunkNext, NextFrame, LeadsApart;
    var a := SealChunk(n, samples, final);
    assert Enabled(s, a) by { CanSeal(s, n, samples, final); }
    SealWorks(s, n, samples, final);
    StepKeepsInv(s, a);
    var between := Next(s, a);
    SealedIsNext(s, between, n, samples, final);
    OpenWorks(between);
    var b := OpenChunk(NextFrame(between));
    StepKeepsInv(between, b);
    t := Next(between, b);
    LeadsOne(s, a);
    LeadsOne(between, b);
    LeadsOn(s, [a], between, [b], t);
    steps := [a] + [b];
  }

  lemma CanSeal(s: System, n: nat, samples: bytes, final: bool)
    requires n < |s.senders|
    ensures Enabled(s, SealChunk(n, samples, final))
  {
  }

  lemma SealedIsNext(s: System, t: System, n: nat, samples: bytes, final: bool)
    requires Inv(s) && CaughtUp(s, 1) && n < |s.senders|
    requires t.senders == s.senders[n := Longer(s.senders[n], samples, final)]
    requires t.tags == s.tags + [Chunk(n, |s.senders[n].chunks|)] && t.world.server == s.world.server
    ensures NextTag(t) == Chunk(n, |s.senders[n].chunks|)
    ensures t.senders[n].chunks[|s.senders[n].chunks|] == samples
    ensures IsLastChunk(t.senders, NextTag(t)) == final
  {
  }

  /** `count` equal chunks of a sender that has sealed none, all delivered. */
  lemma {:induction false} SendMany(s: System, n: nat, samples: bytes, count: nat, room: nat) returns (steps: seq<Step>, t: System)
    requires Inv(s) && CaughtUp(s, room + count) && WaitsFor(s, n) && GoodSamples(samples)
    requires s.senders[n].chunks == [] && s.delivered == [] && s.origins == [] && count < MAX_AUDIO_CHUNKS
    ensures LeadsApart(s, steps, t) && Inv(t) && CaughtUp(t, room) && WaitsFor(t, n)
    ensures |t.senders| == |s.senders| && t.senders[n].state.streamId == s.senders[n].state.streamId
    ensures forall i :: 0 <= i < |s.senders| && i != n ==> t.senders[i] == s.senders[i]
    ensures t.senders[n].chunks == t.delivered && t.delivered == seq(count, _ => samples)
    ensures |t.origins| == count && forall k :: 0 <= k < count ==> t.origins[k] == Chunk(n, k)
    ensures count > 0 ==> t.receiver.streamId == Some(s.senders[n].state.streamId)
    decreases count
  {
    hide Inv, LeadsApart;
    if count == 0 {
      steps, t := [], s;
      assert LeadsApart(s, [], s) by { LeadsNowhere(s); }
    } else {
      var first, middle := SendMany(s, n, samples, count - 1, room + 1);
      var last, after := SendOne(middle, n, samples, false, room);
      LeadsOn(s, first, middle, last, after);
      steps, t := first + last, after;
      assert t.delivered == seq(count, _ => samples);
    }
  }

  lemma LeadsNowhere(s: System)
    ensures LeadsApart(s, [], s)
  {
  }

  lemma Forget(s: System, room: nat) returns (t: System)
    requires Inv(s) && CaughtUp(s, room)
    ensures LeadsApart(s, [CancelReceiver], t) && Inv(t) && CaughtUp(t, room)
    ensures t == s.(receiver := EMPTY, delivered := [], origins := [])
  {
    hide Inv, LeadsApart;
    StepKeepsInv(s, CancelReceiver);
    LeadsOne(s, CancelReceiver);
    t := Next(s, CancelReceiver);
  }

  /** Brings an unfinished sender past its first chunk, with the receiver empty. */
  lemma PastTheFirst(s: System, n: nat, room: nat) returns (steps: seq<Step>, t: System)
    requires Inv(s) && CaughtUp(s, room + 1) && n < |s.senders| && !s.senders[n].state.finished
    ensures LeadsApart(s, steps, t) && Inv(t) && CaughtUp(t, room)
    ensures t.receiver == EMPTY && t.delivered == [] && t.origins == []
    ensures |t.senders| == |s.senders| && forall i :: 0 <= i < |s.senders| && i != n ==> t.senders[i] == s.senders[i]
    ensures !t.senders[n].state.finished && t.senders[n].chunks != [] && t.senders[n].state.streamId == s.senders[n].state.streamId
  {
    hide Inv, LeadsApart;
    var empty := Forget(s, room + 1);
    if s.senders[n].chunks != [] {
      steps, t := [CancelReceiver], empty;
    } else {
      var more, sent := SendOne(empty, n, [0, 0], false, room);
      t := Forget(sent, room);
      LeadsOn(s, [CancelReceiver], empty, more, sent);
      LeadsOn(s, [CancelReceiver] + more, sent, [CancelReceiver], t);
      steps := [CancelReceiver] + more + [CancelReceiver];
    }
  }

  /** What the run after a reused id comes to: neither sender's samples begin with what was delivered as complete. */
  predicate MixesTwo(u: System, n: nat, m: nat) {
    && n < |u.senders| && m < |u.senders| && u.receiver.finished
    && (exists i, j :: 0 <= i < |u.origins| && 0 <= j < |u.origins| &&
          u.origins[i].Chunk? && u.origins[i].sender == n && u.origins[j].Chunk? && u.origins[j].sender == m)
    && !(u.delivered <= u.senders[n].chunks) && !(u.delivered <= u.senders[m].chunks)
  }

  /**
   * Whenever a sender takes the id of an unfinished one, some continuation makes the receiver report a mixture of the
   * two as complete, although every later id is kept apart.
   */
  lemma ReusedIdCanMix(s: System, n: nat) returns (steps: seq<Step>, u: System)
    requires Inv(s) && CaughtUp(s, 66) && n < |s.senders| && !s.senders[n].state.finished
    ensures Enabled(s, NewSender(s.senders[n].state.streamId))
    ensures LeadsApart(Next(s, NewSender(s.senders[n].state.streamId)), steps, u)
    ensures Inv(u) && Mixed(u) && MixesTwo(u, n, |s.senders|)
  {
    hide Inv, LeadsApart;
    var m, id := |s.senders|, s.senders[n].state.streamId;
    UnfinishedSender(s, n);
    StepKeepsInv(s, NewSender(id));
    var s1 := Next(s, NewSender(id));
    var a, s2 := PastTheFirst(s1, n, 65);
    var count := |s2.senders[n].chunks|;
    UnfinishedSender(s2, n);
    var samples := if s2.senders[n].chunks[0] == [0, 0] then [1, 1] else [0, 0];
    var b, s3 := SendMany(s2, m, samples, count, 65 - count);
    assert WaitsFor(s3, n);
    var c, s4 := SendOne(s3, n, [0, 0], true, 64 - count);
    LeadsOn(s1, a, s2, b, s3);
    LeadsOn(s1, a + b, s3, c, s4);
    steps, u := a + b + c, s4;
    assert u.origins[0] == Chunk(m, 0) && u.origins[count] == Chunk(n, count);
    assert u.delivered[0] == samples && u.senders[n].chunks[0] != samples && |u.delivered| == count + 1 > |u.senders[m].chunks|;
  }

  lemma UnfinishedSender(s: System, n: nat)
    requires Inv(s) && n < |s.senders| && !s.senders[n].state.finished
    ensures |s.senders[n].chunks| < MAX_AUDIO_CHUNKS && Identifier(s.senders[n].state.streamId, MAX_AUDIO_STREAM_ID_LENGTH)
    ensures Enabled(s, NewSender(s.senders[n].state.streamId))
  {
    hide RL.Inv, TagsInv, Ordered, AllTagged, ReceiverInv;
    assert SendingInv(s.senders[n]);
  }

  /**
   * The exact condition. On a caught-up session, creating a sender can lead to a mixed stream if and only if its id is
   * that of a sender that can still seal.
   */
  lemma ReuseMixesExactly(s: System, id: string)
    requires ApartInv(s) && CaughtUp(s, 66) && Enabled(s, NewSender(id))
    ensures FreshId(s, NewSender(id)) <==>
            !exists steps, u :: LeadsApart(Next(s, NewSender(id)), steps, u) && Mixed(u)
  {
    hide Inv, TookTurns, OneSource, LeadsApart, Next, CaughtUp, Enabled;
    if FreshId(s, NewSender(id)) {
      StepKeepsApartInv(s, NewSender(id));
      forall steps, u | LeadsApart(Next(s, NewSender(id)), steps, u)
        ensures !Mixed(u)
      {
        ApartRunsStayApart(Next(s, NewSender(id)), steps, u);
      }
    } else {
      var n :| 0 <= n < |s.senders| && s.senders[n].state.streamId == id && !s.senders[n].state.finished;
      var steps, u := ReusedIdCanMix(s, n);
    }
  }

  /** A session on which nothing was sent yet. */
  function NewSystem(): System {
    var m := RL.Material(1, 2, [0, 0, 0, 1], [0, 0, 0, 2]);
    System(RL.World(RL.Party(RL.FromMaterial("s", m, RL.Client, RL.PYTHON_SEQUENCES), [], [], []),
                    RL.Party(RL.FromMaterial("s", m, RL.Server, RL.PYTHON_SEQUENCES), [], [], [])),
           [], [], EMPTY, [], [])
  }

  /** In particular a run from the start can mix two streams. */
  lemma SomeRunMixesStreams() returns (steps: seq<Step>, u: System)
    ensures Init(NewSystem()) && Enabled(NewSystem(), NewSender("x")) && Enabled(Next(NewSystem(), NewSender("x")), NewSender("x"))
    ensures LeadsApart(Next(Next(NewSystem(), NewSender("x")), NewSender("x")), steps, u) && MixesTwo(u, 0, 1)
  {
    hide LeadsApart, Inv;
    var s := NewSystem();
    var m := RL.Material(1, 2, [0, 0, 0, 1], [0, 0, 0, 2]);
    assert RL.Init(s.world, "s", m, RL.PYTHON_SEQUENCES, RL.PYTHON_SEQUENCES);
    InitInv(s);
    StepKeepsInv(s, NewSender("x"));
    steps, u := ReusedIdCanMix(Next(s, NewSender("x")), 0);
  }
}

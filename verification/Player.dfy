// The worklet processor: ring, resampler and descriptor ring updated in place.
// Every method is proved to do to the state what PlayerModel says.
module Player {
  import opened Arithmetic
  import opened Options
  import opened Resampling
  import opened PcmRing
  import opened Resampler
  import M = PlayerModel
  import opened PlayerInvariant
  import R = PlayerRuns
  import H = PlayerAudible

  // A fixed ring of packet ends, oldest first.
  class DescriptorRing {
    const ends: array<nat>
    var readIndex: nat
    var writeIndex: nat
    var used: nat

    ghost predicate Valid()
      reads this
    {
      ends.Length == M.DESCRIPTORS && readIndex < M.DESCRIPTORS && used <= M.DESCRIPTORS
      && writeIndex == Slot(readIndex, used, M.DESCRIPTORS)
    }

    ghost function Live(): (live: seq<nat>)
      requires Valid()
      reads this, ends
      ensures |live| == used
    {
      seq(used, i requires 0 <= i < used reads this, ends requires Valid() => ends[Slot(readIndex, i, M.DESCRIPTORS)])
    }

    constructor ()
      ensures Valid() && Live() == [] && fresh(ends)
    {
      ends := new nat[M.DESCRIPTORS];
      readIndex, writeIndex, used := 0, 0, 0;
    }

    method Clear()
      requires Valid()
      modifies this
      ensures Valid() && Live() == []
    {
      readIndex, writeIndex, used := 0, 0, 0;
    }

    method Add(end: nat)
      requires Valid() && used < M.DESCRIPTORS
      modifies this, ends
      ensures Valid() && Live() == old(Live()) + [end]
    {
      ghost var before := Live();
      ends[writeIndex] := end;
      NextSlot(writeIndex, M.DESCRIPTORS);
      writeIndex := (writeIndex + 1) % M.DESCRIPTORS;
      used := used + 1;
      assert Live() == before + [end];
    }

    // Drops every descriptor ending at or before the position.
    method RetireUpTo(position: nat)
      requires Valid()
      modifies this
      ensures Valid() && Live() == M.Retire(old(Live()), position)
    {
      while used > 0 && ends[readIndex] <= position
        invariant Valid()
        invariant M.Retire(Live(), position) == M.Retire(old(Live()), position)
        decreases used
      {
        ghost var before := Live();
        NextSlot(readIndex, M.DESCRIPTORS);
        readIndex := (readIndex + 1) % M.DESCRIPTORS;
        used := used - 1;
        assert Live() == before[1..];
      }
    }
  }

  // What the processor itself need not remember: how many generations were
  // activated, the packet ends of the current one, and the posted messages.
  datatype History = History(epoch: nat, packets: seq<nat>, posted: seq<M.Report>)

  class PCMPlayerProcessor {
    const config: M.Config
    const ring: PCMFrameRing
    const resampler: StreamingLinearResampler
    const metadata: DescriptorRing
    var activeGeneration: string
    var paused: bool
    var pauseID: string
    var generationDone: bool
    var completed: bool
    var started: bool
    var rebuffering: bool
    var playedFrames: nat
    var playedSourceFrames: nat
    var lastReportedFrames: nat
    var lastChunk: int
    var lastPacket: int
    ghost var history: History

    ghost function Repr(): set<object> { {this, ring, ring.samples, resampler, metadata, metadata.ends} }

    ghost predicate Shape()
      reads Repr()
    {
      && ring.Valid() && resampler.Valid() && metadata.Valid()
      && resampler.ring == ring && resampler.outputRate == config.outputRate && ring.capacity == config.capacity
    }

    ghost function Stream(): M.Stream
      reads this, resampler
    {
      M.Stream(history.epoch, resampler.sourceRate, resampler.source, resampler.outputFrames, playedFrames,
               generationDone)
    }

    ghost function View(): M.View
      reads this, ring, ring.samples, resampler, metadata, metadata.ends
      requires metadata.Valid()
    {
      M.View(config, activeGeneration,
             Stream(), history.packets, metadata.Live(), paused, pauseID, completed, started, rebuffering,
             playedSourceFrames, lastReportedFrames, lastChunk, lastPacket, history.posted)
    }

    // The ring holds exactly the emitted output not yet rendered.
    ghost predicate Valid()
      reads Repr()
    {
      && Shape() && Inv(View())
      && (generationDone || resampler.Streaming())
      && ring.used == resampler.outputFrames - playedFrames
      && ring.Contents() == R.Heard(Stream(), config.outputRate, resampler.outputFrames)[playedFrames..]
    }

    constructor (outputRate: nat, startupMs: Option<real>, lowMs: Option<real>, capacityMs: Option<real>)
      requires outputRate > 0
      ensures Valid() && fresh(Repr())
      ensures View() == M.Initial(M.MakeConfig(outputRate, startupMs, lowMs, capacityMs))
    {
      var c := M.MakeConfig(outputRate, startupMs, lowMs, capacityMs);
      config := c;
      var r := new PCMFrameRing(c.capacity);
      ring := r;
      resampler := new StreamingLinearResampler(outputRate, r);
      metadata := new DescriptorRing();
      activeGeneration, pauseID := "", "";
      paused, generationDone, completed, started, rebuffering := false, false, false, false, false;
      playedFrames, playedSourceFrames, lastReportedFrames := 0, 0, 0;
      lastChunk, lastPacket := -1, -1;
      history := History(0, [], []);
      new;
      InitialOk(c);
    }

    method ResetCounters()
      modifies this
      ensures activeGeneration == old(activeGeneration)
      ensures !paused && pauseID == "" && !generationDone && !completed && !started && !rebuffering
      ensures playedFrames == playedSourceFrames == lastReportedFrames == 0
      ensures lastChunk == lastPacket == -1
      ensures history == old(history).(epoch := old(history).epoch + 1, packets := [])
    {
      paused, pauseID := false, "";
      generationDone, completed, started, rebuffering := false, false, false, false;
      playedFrames, playedSourceFrames, lastReportedFrames := 0, 0, 0;
      lastChunk, lastPacket := -1, -1;
      history := history.(epoch := history.epoch + 1, packets := []);
    }

    method Reset()
      requires Valid()
      modifies Repr()
      ensures Valid() && View() == M.Reset(old(View()))
    {
      ResetOk(View());
      hide FramesOk, DescriptorsOk, ReportsOk, ProgressOk, Output, Slot;
      ghost var v := View();
      ResetCounters();
      ring.Clear();
      resampler.Reset();
      metadata.Clear();
      assert View().stream == M.Reset(v).stream;
      assert View() == M.Reset(v);
    }

    method SourcePosition() returns (frames: nat)
      requires Shape() && playedFrames <= resampler.outputFrames && ring.used == resampler.outputFrames - playedFrames
      ensures frames == M.SourceFrames(config.outputRate, Stream())
    {
      if resampler.sourceRate == 0 { return 0; }
      if generationDone && ring.used == 0 { return resampler.inputFrames; }
      return Min(resampler.inputFrames, playedFrames * resampler.sourceRate / config.outputRate);
    }

    method UpdateProgress()
      requires Valid()
      modifies this`playedSourceFrames, metadata
      ensures Valid() && View() == M.UpdateProgress(old(View()))
    {
      UpdateOk(View());
      hide FramesOk, DescriptorsOk, ReportsOk, ProgressOk;
      playedSourceFrames := SourcePosition();
      metadata.RetireUpTo(playedSourceFrames);
    }

    method Report(kind: M.Kind)
      requires Valid()
      modifies this`playedSourceFrames, this`lastReportedFrames, this`history, metadata
      ensures Valid() && View() == M.Post(old(View()), kind)
    {
      if activeGeneration != "" { PostReport(kind); }
    }

    // Posting a snapshot to the main thread; the message goes to the ghost log.
    method PostReport(kind: M.Kind)
      requires Valid() && activeGeneration != ""
      modifies this`playedSourceFrames, this`lastReportedFrames, this`history, metadata
      ensures Valid() && View() == M.Post(old(View()), kind)
    {
      hide Inv, DescriptorsOk;
      PostOk(View(), kind);
      hide FramesOk, DescriptorsOk, ReportsOk, ProgressOk, Output, Slot, R.Heard, M.SourceFrames, M.Retire,
           M.AdvertisedCapacity, Target, Emitted;
      UpdateProgress();
      lastReportedFrames := playedFrames;
      var rate := resampler.sourceRate;
      var capacity := M.AdvertisedCapacity(config, rate);
      history := history.(posted := history.posted +
        [M.Report(kind, history.epoch, activeGeneration, pauseID, playedFrames, rate, playedSourceFrames,
                  resampler.inputFrames, capacity, ring.used)]);
    }

    // Changing only what the invariant does not mention.
    twostate lemma Untouched()
      requires old(Valid())
      requires unchanged(ring) && unchanged(ring.samples) && unchanged(resampler) && unchanged(metadata)
               && unchanged(metadata.ends)
      requires old(metadata.Valid()) && SameFrames(old(View()), View())
      ensures Valid()
    {
      SameFramesOk(old(View()), View());
    }

    method SetGeneration(id: string)
      requires Valid()
      modifies Repr()
      ensures Valid() && View() == M.SetGeneration(old(View()), id)
    {
      if id == "" || id == activeGeneration { return; }
      hide FramesOk, DescriptorsOk, ReportsOk, ProgressOk, Output, Slot, R.Heard, M.UpdateProgress, Target, Emitted;
      if activeGeneration != "" { Report(M.Progress); }
      Reset();
      label here:
      activeGeneration := id;
      Untouched@here();
    }

    method Clear(id: string)
      requires Valid()
      modifies Repr()
      ensures Valid() && View() == M.Clear(old(View()), id)
    {
      if id != "" && id != activeGeneration { return; }
      hide FramesOk, DescriptorsOk, ReportsOk, ProgressOk, Output, Slot, R.Heard, M.UpdateProgress, Target, Emitted;
      Report(M.Progress);
      Reset();
      label here:
      activeGeneration := "";
      Untouched@here();
    }

    method Fail(reason: string)
      requires Valid()
      modifies Repr()
      ensures Valid() && View() == M.Fail(old(View()), reason)
    {
      hide FramesOk, DescriptorsOk, ReportsOk, ProgressOk, Output, Slot, R.Heard, M.UpdateProgress, Target, Emitted;
      Report(M.Overflow(reason));
      Clear(activeGeneration);
    }

    // The one handler that does not ask for an identifier: a message without one is
    // taken when no generation is active. Identifiers never are the empty string,
    // which stands here for a missing one.
    method SetFormat(id: string, rate: int)
      requires Valid()
      modifies Repr()
      ensures Valid() && View() == M.SetFormat(old(View()), id, rate)
    {
      hide M.Post;
      if id != activeGeneration || generationDone { return; }
      hide FramesOk, DescriptorsOk, ReportsOk, ProgressOk, Output, Slot, R.Heard, M.Fail, M.Post, Target, Emitted;
      if rate < 1000 || rate > 192000 || (resampler.sourceRate != 0 && resampler.sourceRate != rate) {
        Fail("invalid_format");
      } else {
        RememberRate(rate);
        Report(M.Credit);
      }
    }

    method RememberRate(rate: nat)
      requires Valid() && rate > 0 && !generationDone
      requires resampler.sourceRate == 0 || resampler.sourceRate == rate
      modifies resampler
      ensures Valid() && View() == M.WithRate(old(View()), rate)
    {
      WithRateOk(View(), rate);
      resampler.sourceRate := rate;
    }

    // Feeds an admitted packet to the resampler and describes it. The admission
    // check reserves the eventual tail, so the ring cannot overflow.
    method Feed(samples: seq<real>, rate: nat)
      requires Valid() && !generationDone && samples != [] && resampler.sourceRate == rate > 0
      requires M.Admits(View(), |resampler.source| + |samples|, rate)
      modifies this`history, ring, ring.samples, resampler, metadata, metadata.ends
      ensures Valid() && View() == M.Accept(old(View()), samples, rate)
    {
      ghost var s, o, w0, source := resampler.sourceRate, config.outputRate, resampler.outputFrames, resampler.source;
      AcceptOk(View(), samples, s);
      hide FramesOk, DescriptorsOk, ReportsOk, ProgressOk, Output, Slot;
      assert Emitted(|source| + |samples|, s, o) - w0 <= ring.capacity - ring.used by {
        EmittedWithinTarget(|source| + |samples|, s, o);
      }
      var stored := resampler.Push(samples);
      assert stored; // "PCM ring full" is unreachable
      QueueExtends(source, samples, s, o, playedFrames, w0, resampler.outputFrames);
      metadata.Add(resampler.inputFrames);
      history := history.(packets := history.packets + [resampler.inputFrames]);
    }

    static lemma QueueExtends(source: seq<real>, more: seq<real>, s: nat, o: nat, from: nat, w0: nat, w1: nat)
      requires s > 0 && o > 0 && from <= w0 <= w1 && w0 == Emitted(|source|, s, o)
      ensures Output(source, s, o, w0)[from..] + Output(source + more, s, o, w1)[w0..] ==
              Output(source + more, s, o, w1)[from..]
    {
      OutputStable(source, more, s, o, w0);
      assert Output(source + more, s, o, w1)[from..w0] == Output(source + more, s, o, w0)[from..];
    }

    method Enqueue(id: string, samples: seq<real>, sourceRate: int, meta: M.Metadata)
      requires Valid()
      modifies Repr()
      ensures Valid() && View() == M.Enqueue(old(View()), id, samples, sourceRate, meta)
    {
      if id == "" || id != activeGeneration || generationDone { return; }
      if |samples| == 0 { return; }
      var consistent := Consistent(samples, sourceRate, meta);
      assert consistent ==> sourceRate > 0 && (resampler.sourceRate == 0 || resampler.sourceRate == sourceRate);
      hide FramesOk, DescriptorsOk, ReportsOk, ProgressOk, Output, Slot, R.Heard, M.Deliver, M.Fail, M.AudioConsistent;
      if !consistent {
        Fail("invalid_audio");
        return;
      }
      Deliver(samples, sourceRate, meta);
    }

    method Deliver(samples: seq<real>, rate: nat, meta: M.Metadata)
      requires Valid() && !generationDone && samples != [] && rate > 0
      requires resampler.sourceRate == 0 || resampler.sourceRate == rate
      modifies Repr()
      ensures Valid() && View() == M.Deliver(old(View()), samples, rate, meta)
    {
      var inOrder := InOrder(meta);
      hide FramesOk, DescriptorsOk, ReportsOk, ProgressOk, Output, Slot, R.Heard, M.Admit, M.Fail, M.PacketInOrder;
      if !inOrder {
        Fail("invalid_packet_order");
        return;
      }
      RememberPacket(rate, meta);
      Admit(samples, rate);
    }

    // The capacity check, then delivery.
    method Admit(samples: seq<real>, rate: nat)
      requires Valid() && !generationDone && samples != [] && resampler.sourceRate == rate > 0
      modifies Repr()
      ensures Valid() && View() == M.Admit(old(View()), samples, rate)
    {
      var fits := Fits(|samples|, rate);
      hide FramesOk, DescriptorsOk, ReportsOk, ProgressOk, Output, Slot, R.Heard, M.Accept, M.Fail, M.Post, M.Admits;
      if fits {
        Feed(samples, rate);
        Report(M.Credit);
      } else {
        Fail("capacity");
      }
    }

    method Fits(frames: nat, rate: nat) returns (fits: bool)
      requires Valid() && resampler.sourceRate == rate > 0
      ensures fits == M.Admits(View(), |resampler.source| + frames, rate)
    {
      var total := resampler.inputFrames + frames;
      var target := resampler.TargetFrames(total);
      fits := !(total > M.MAX_SAFE_INTEGER / Max(config.outputRate, rate) || target - playedFrames > ring.capacity
                || metadata.used == M.DESCRIPTORS);
    }

    method Consistent(samples: seq<real>, rate: int, meta: M.Metadata) returns (ok: bool)
      requires Valid()
      ensures ok == M.AudioConsistent(View(), samples, rate, meta)
    {
      ok := rate >= 1000 && rate <= 192000 && (resampler.sourceRate == 0 || rate == resampler.sourceRate)
        && (meta.sourceFrames.None? || meta.sourceFrames.value == |samples|)
        && (meta.sourceStart.None? || meta.sourceStart.value == resampler.inputFrames);
    }

    method InOrder(meta: M.Metadata) returns (ok: bool)
      requires Valid()
      ensures ok == M.PacketInOrder(View(), meta)
    {
      if meta.speechSequence.None? { return true; }
      if meta.audioSequence.None? { return false; }
      var chunk, packet := meta.speechSequence.value, meta.audioSequence.value;
      return M.SafeInteger(chunk) && M.SafeInteger(packet) && chunk >= 0 && packet >= 0
          && (if chunk == lastChunk then packet == lastPacket + 1 else chunk == lastChunk + 1 && packet == 0);
    }

    method RememberPacket(rate: nat, meta: M.Metadata)
      requires Valid() && rate > 0 && !generationDone
      requires resampler.sourceRate == 0 || resampler.sourceRate == rate
      requires M.PacketInOrder(View(), meta)
      modifies this`lastChunk, this`lastPacket, resampler
      ensures Valid() && View() == M.Stamp(old(View()), rate, meta)
    {
      RememberRate(rate);
      label here:
      if meta.speechSequence.Some? {
        lastChunk := meta.speechSequence.value;
        lastPacket := meta.audioSequence.value;
      }
      Untouched@here();
    }

    method CheckDrain()
      requires Valid()
      modifies this`completed, this`playedSourceFrames, this`lastReportedFrames, this`history, metadata
      ensures Valid() && View() == M.CheckDrain(old(View()))
    {
      if generationDone && ring.used == 0 && !completed {
        completed := true;
        hide FramesOk, DescriptorsOk, ReportsOk, ProgressOk, Output, Slot, R.Heard, M.UpdateProgress;
        Report(M.Progress);
        Report(M.Completed);
      }
    }

    // generation.done: write the held tail, then wait for the ring to drain.
    method WriteTail()
      requires Valid() && !generationDone && resampler.inputFrames > 0
      modifies this`generationDone, ring, ring.samples, resampler
      ensures Valid() && View() == M.Ended(old(View()))
    {
      ghost var s, o, w0, source := resampler.sourceRate, config.outputRate, resampler.outputFrames, resampler.source;
      EndedOk(View());
      EmittedWithinTarget(|source|, s, o);
      generationDone := true;
      hide FramesOk, DescriptorsOk, ReportsOk, ProgressOk, Slot, Emitted;
      var stored := resampler.Finish();
      assert stored; // the tail was reserved too
      assert Output(source, s, o, w0)[playedFrames..] + Output(source, s, o, resampler.outputFrames)[w0..]
          == Output(source, s, o, resampler.outputFrames)[playedFrames..];
    }

    method Finish(id: string, sourceFrames: Option<int>)
      requires Valid()
      modifies Repr()
      ensures Valid() && View() == M.Finish(old(View()), id, sourceFrames)
    {
      if id == "" || id != activeGeneration || generationDone { return; }
      if sourceFrames.Some? && sourceFrames.value != resampler.inputFrames {
        Fail("incomplete_source_stream");
        return;
      }
      if resampler.inputFrames > 0 {
        WriteTail();
      } else {
        EndedOk(View());
        generationDone := true;
      }
      CheckDrain();
    }

    method Pause(id: string, token: string)
      requires Valid()
      modifies Repr()
      ensures Valid() && View() == M.Pause(old(View()), id, token)
    {
      if id == "" || id != activeGeneration || token == "" { return; }
      label here:
      paused, pauseID := true, token;
      Untouched@here();
      Report(M.PauseAck);
    }

    method Resume(id: string, token: string)
      requires Valid()
      modifies Repr()
      ensures Valid() && View() == M.Resume(old(View()), id, token)
    {
      if id == "" || id != activeGeneration || !paused || token != pauseID { return; }
      label here:
      paused, pauseID := false, "";
      Untouched@here();
    }

    // Copies the oldest samples to the output and advances the rendered position.
    method Render(output: array<real>, count: nat)
      requires Valid() && !completed && count <= ring.used && count <= output.Length && output !in Repr()
      modifies this`started, this`rebuffering, this`playedFrames, this`playedSourceFrames, ring, metadata, output
      ensures Valid() && View() == M.Render(old(View()), count)
      ensures output[..count] == old(ring.Contents())[..count] && output[count..] == old(output[count..])
    {
      Consume(output, count);
      hide FramesOk, DescriptorsOk, ReportsOk, ProgressOk, Output, Slot, R.Heard, M.UpdateProgress, M.Advanced;
      UpdateProgress();
    }

    method Consume(output: array<real>, count: nat)
      requires Valid() && !completed && count <= ring.used && count <= output.Length && output !in Repr()
      modifies this`started, this`rebuffering, this`playedFrames, ring, output
      ensures Valid() && View() == M.Advanced(old(View()), count)
      ensures output[..count] == old(ring.Contents())[..count] && output[count..] == old(output[count..])
    {
      hide Inv, FramesOk, CeilDiv, Sample;
      ghost var v := View();
      AdvancedOk(v, count);
      assert R.Heard(v.stream, config.outputRate, v.stream.emitted)[playedFrames..][count..]
          == R.Heard(v.stream, config.outputRate, v.stream.emitted)[playedFrames + count..];
      R.SameHeard(v.stream, count, config.outputRate, v.stream.emitted);
      hide FramesOk, DescriptorsOk, ReportsOk, ProgressOk, Output, Slot, R.Heard, M.Retire, M.SourceFrames;
      var audible := ring.used > 0;
      Drain(output, count);
      if audible { started, rebuffering := true, false; }
      playedFrames := playedFrames + count;
    }

    method Drain(output: array<real>, count: nat)
      requires ring.Valid() && count <= ring.used && count <= output.Length && output != ring.samples
      modifies ring, output
      ensures ring.Valid() && ring.Contents() == old(ring.Contents())[count..]
      ensures output[..count] == old(ring.Contents())[..count] && output[count..] == old(output[count..])
    {
      ghost var queue := ring.Contents();
      var i := 0;
      while i < count
        invariant 0 <= i <= count && ring.Valid()
        invariant ring.Contents() == queue[i..]
        invariant output[..i] == queue[..i] && output[count..] == old(output[count..])
      {
        var value := ring.Read();
        output[i] := value;
        i := i + 1;
        assert output[..i] == queue[..i];
      }
    }

    method Silence(output: array<real>)
      modifies output
      ensures forall i | 0 <= i < output.Length :: output[i] == 0.0
    {
      for i := 0 to output.Length
        invariant forall j | 0 <= j < i :: output[j] == 0.0
      {
        output[i] := 0.0;
      }
    }

    // What a quantum makes audible is at the front of the ring.
    lemma AudibleFirst(frames: nat)
      requires Valid()
      ensures M.Queued(View()) == ring.used
      ensures var count := if M.Renders(View()) then Min(frames, ring.used) else 0;
              ring.Contents()[..count] == R.Audible(View(), R.RenderEvent(frames))
    {
      hide DescriptorsOk, ReportsOk, ProgressOk, Output, Slot, M.Renders;
    }

    // How much a quantum makes audible.
    lemma HeardNow(frames: nat)
      requires Valid()
      ensures var heard := R.Audible(View(), R.RenderEvent(frames));
              var silent := paused || activeGeneration == "" || completed;
              && |heard| == (if silent || H.Filling(View()) then 0 else Min(frames, ring.used))
              && (silent || !M.Renders(View()) ==> M.Process(View(), frames) == View())
    {
      hide DescriptorsOk, ReportsOk, ProgressOk, FramesOk, Output, Slot, M.Renders, H.Filling, M.Render, M.NoteUnderrun,
           M.NoteProgress, M.CheckDrain;
      H.HeardExactly(View(), frames);
    }

    // One render quantum; a quantum without an output channel is skipped.
    method Process(output: array?<real>)
      requires Valid() && output !in Repr()
      modifies Repr(), output
      ensures Valid()
      ensures View() == if output == null then old(View()) else M.Process(old(View()), output.Length)
      ensures output != null ==>
        var heard := R.Audible(old(View()), R.RenderEvent(output.Length));
        && |heard| <= output.Length && output[..|heard|] == heard
        && forall i | |heard| <= i < output.Length :: output[i] == 0.0
      ensures old(paused) || old(activeGeneration) == "" || old(completed) ==> View() == old(View())
      ensures output != null ==>
        var silent := old(paused) || old(activeGeneration) == "" || old(completed) || H.Filling(old(View()));
        var count := if silent then 0 else Min(output.Length, old(ring.used));
        && output[..count] == old(ring.Contents())[..count]
        && forall i | count <= i < output.Length :: output[i] == 0.0
    {
      hide M.NoteUnderrun, Inv, Slot, R.Audible, M.Process, M.Renders, M.RenderCount, H.Filling;
      if output == null { return; }
      HeardNow(output.Length);
      Silence(output);
      ghost var heard := R.Audible(View(), R.RenderEvent(output.Length));
      AudibleFirst(output.Length);
      var audible := Gate();
      if !audible { return; }
      ghost var silent := output[..];
      RenderQuantum(output);
      assert output[..|heard|] == heard && output[|heard|..] == silent[|heard|..];
    }

    method RenderQuantum(output: array<real>)
      requires Valid() && output !in Repr() && M.Renders(View())
      modifies Repr(), output
      ensures Valid() && View() == M.Process(old(View()), output.Length)
      ensures output[..Min(output.Length, old(ring.used))] == old(ring.Contents())[..Min(output.Length, old(ring.used))]
      ensures output[Min(output.Length, old(ring.used))..] == old(output[Min(output.Length, ring.used)..])
    {
      var count := Min(output.Length, ring.used);
      hide FramesOk, DescriptorsOk, ReportsOk, ProgressOk, Output, Slot, R.Heard, M.Render, M.NoteUnderrun,
           M.NoteProgress, M.CheckDrain;
      Render(output, count);
      NoteUnderrun(count, output.Length);
      NoteProgress(count);
      CheckDrain();
    }

    // Startup and rebuffering wait for the watermark unless the source is done.
    method Gate() returns (audible: bool)
      requires Valid()
      ensures audible == M.Renders(View())
      ensures audible ==> !completed
    {
      if activeGeneration == "" || paused || completed { return false; }
      if (!started || rebuffering) && !generationDone {
        var threshold := M.Ceil(config.outputRate as real * (if rebuffering then config.lowMs
                                                             else config.startupMs) / 1000.0);
        return ring.used >= threshold;
      }
      return true;
    }

    method NoteUnderrun(count: nat, frames: nat)
      requires Valid()
      modifies this`rebuffering, this`playedSourceFrames, this`lastReportedFrames, this`history, metadata
      ensures Valid() && View() == M.NoteUnderrun(old(View()), count, frames)
    {
      hide FramesOk, DescriptorsOk, ReportsOk, ProgressOk, Output, Slot, R.Heard, M.Post;
      if started && count < frames && !generationDone && !rebuffering {
        label here:
        rebuffering := true;
        Untouched@here();
        Report(M.Underrun);
      }
    }

    method NoteProgress(count: nat)
      requires Valid()
      modifies this`playedSourceFrames, this`lastReportedFrames, this`history, metadata
      ensures Valid() && View() == M.NoteProgress(old(View()), count)
    {
      hide FramesOk, DescriptorsOk, ReportsOk, ProgressOk, Output, Slot, R.Heard, M.Post;
      var lag := playedFrames - lastReportedFrames;
      if count > 0 && (ring.used == 0 || (lag >= 128 && 20 * lag >= config.outputRate)) { Report(M.Progress); }
    }

    // The port dispatch.
    method OnMessage(m: R.Event)
      requires Valid() && !m.RenderEvent?
      modifies Repr()
      ensures Valid() && View() == R.Step(old(View()), m)
    {
      hide FramesOk, DescriptorsOk, ReportsOk, ProgressOk, Output, Slot, R.Heard, M.SetGeneration, M.SetFormat,
           M.Enqueue, M.Finish, M.Pause, M.Resume, M.Clear;
      match m
      case SetGenerationEvent(id) => SetGeneration(id);
      case FormatEvent(id, rate) => SetFormat(id, rate);
      case AudioEvent(id, samples, rate, meta) => Enqueue(id, samples, rate, meta);
      case DoneEvent(id, n) => Finish(id, n);
      case PauseEvent(id, token) => Pause(id, token);
      case ResumeEvent(id, token) => Resume(id, token);
      case ClearEvent(id) => Clear(id);
    }
  }
}

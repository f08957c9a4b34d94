// What every message and every render quantum keeps true of the playback state.
module PlayerInvariant {
  import opened Arithmetic
  import opened Options
  import opened Resampling
  import opened PlayerModel

  ghost predicate WellConfigured(c: Config) { c.outputRate > 0 && c.capacity > 0 }

  // Frames: the resampler has emitted exactly what its input decides, and the
  // eventual total, tail included, fits behind the rendered position.
  ghost predicate FramesOk(v: View) {
    && WellConfigured(v.config)
    && (v.stream.rate == 0 ==> v.stream.source == [] && v.stream.emitted == 0)
    && v.stream.played <= v.stream.emitted
    && (v.stream.rate > 0 ==>
      && v.stream.emitted == (if v.stream.done then Target(|v.stream.source|, v.stream.rate, v.config.outputRate)
                       else Emitted(|v.stream.source|, v.stream.rate, v.config.outputRate))
      && Target(|v.stream.source|, v.stream.rate, v.config.outputRate) - v.stream.played <= v.config.capacity)
    && (v.completed ==> v.stream.done && v.stream.played == v.stream.emitted)
  }

  ghost predicate Increasing(ends: seq<nat>) {
    forall i, j | 0 <= i < j < |ends| :: ends[i] < ends[j]
  }

  // Descriptors: packet ends grow up to the received total, and the live ones
  // are those not retired at the reported position.
  ghost predicate DescriptorsOk(v: View) {
    && Increasing(v.packets)
    && (v.packets != [] ==> v.packets[0] > 0 && v.packets[|v.packets| - 1] == |v.stream.source|)
    && (v.packets == [] ==> v.stream.source == [])
    && v.live == Retire(v.packets, v.playedSource)
    && |v.live| <= DESCRIPTORS
  }

  // Reported position of a rendered count: floor on the source axis.
  ghost function SourceFloor(played: nat, rate: nat, o: nat): int
    requires o > 0
  {
    played * rate / o
  }

  // Reports of one epoch never move backwards and never run ahead of what was
  // received or of what was rendered.
  ghost predicate ReportOk(r: Report, o: nat) {
    && r.playedSource <= r.received
    && r.playedSource * o <= r.playedFrames * r.sourceRate
  }

  ghost predicate NotBefore(earlier: Report, later: Report) {
    earlier.epoch <= later.epoch &&
    (earlier.epoch == later.epoch ==>
       && earlier.playedSource <= later.playedSource
       && earlier.received <= later.received
       && earlier.playedFrames <= later.playedFrames)
  }

  ghost predicate WithinView(r: Report, v: View) {
    r.epoch <= v.stream.epoch &&
    (r.epoch == v.stream.epoch ==>
       && r.playedSource <= v.playedSource && r.received <= |v.stream.source| && r.playedFrames <= v.stream.played
       && (r.playedSource > 0 ==> r.sourceRate == v.stream.rate))
  }

  ghost predicate ReportsOk(v: View) {
    && (forall i | 0 <= i < |v.posted| :: ReportOk(v.posted[i], v.config.outputRate))
    && (forall i, j | 0 <= i < j < |v.posted| :: NotBefore(v.posted[i], v.posted[j]))
    && (forall i | 0 <= i < |v.posted| :: WithinView(v.posted[i], v))
  }

  ghost predicate ProgressOk(v: View)
    requires v.config.outputRate > 0
  {
    && v.playedSource <= SourceProgress(v)
    && v.lastReported <= v.stream.played
  }

  ghost predicate Inv(v: View) {
    FramesOk(v) && DescriptorsOk(v) && ProgressOk(v) && ReportsOk(v)
  }

  // --- the reported position -------------------------------------------------

  // At drain the floor formula already reaches the received total, so the
  // source's special case for it never causes a jump.
  lemma DrainedFloor(v: View)
    requires FramesOk(v) && v.stream.rate > 0 && v.stream.done && v.stream.played == v.stream.emitted
    ensures SourceFloor(v.stream.played, v.stream.rate, v.config.outputRate) >= |v.stream.source|
  {
    var n, s, o := |v.stream.source|, v.stream.rate, v.config.outputRate;
    TargetIff(v.stream.played, n, s, o);
    LeFloor(n, v.stream.played * s, o);
  }

  // The reported position is the smaller of the received total and the floor of
  // the rendered position, in every state.
  lemma ProgressIsFloor(v: View)
    requires FramesOk(v)
    ensures SourceProgress(v) ==
            Min(|v.stream.source|, SourceFloor(v.stream.played, v.stream.rate, v.config.outputRate))
    ensures SourceProgress(v) <= |v.stream.source|
    ensures SourceProgress(v) * v.config.outputRate <= v.stream.played * v.stream.rate
  {
    var o := v.config.outputRate;
    if v.stream.rate > 0 && v.stream.done && v.stream.played == v.stream.emitted { DrainedFloor(v); }
    LeFloor(0, v.stream.played * v.stream.rate, o);
    LeFloor(SourceProgress(v), v.stream.played * v.stream.rate, o);
  }

  // Rendering more, receiving more or learning the rate never moves it back.
  lemma ProgressMonotone(v: View, w: View)
    requires FramesOk(v) && FramesOk(w) && v.config == w.config
    requires v.stream.rate == 0 || v.stream.rate == w.stream.rate
    requires v.stream.played <= w.stream.played && |v.stream.source| <= |w.stream.source|
    ensures SourceProgress(v) <= SourceProgress(w)
  {
    ProgressIsFloor(v);
    ProgressIsFloor(w);
    if v.stream.rate > 0 {
      MulMono(v.stream.played, w.stream.played, v.stream.rate);
      DivMono(v.stream.played * v.stream.rate, w.stream.played * w.stream.rate, v.config.outputRate);
    }
  }

  // --- descriptors -----------------------------------------------------------

  lemma {:induction false} RetireTwice(ends: seq<nat>, p: nat, q: nat)
    requires p <= q
    ensures Retire(Retire(ends, p), q) == Retire(ends, q)
  {
    if ends != [] && ends[0] <= p { RetireTwice(ends[1..], p, q); }
  }

  lemma {:induction false} RetireAppend(ends: seq<nat>, p: nat, e: nat)
    requires p < e
    ensures Retire(ends + [e], p) == Retire(ends, p) + [e]
  {
    if ends != [] && ends[0] <= p {
      assert (ends + [e])[1..] == ends[1..] + [e];
      RetireAppend(ends[1..], p, e);
    }
  }

  lemma {:induction false} RetireShrinks(ends: seq<nat>, p: nat)
    ensures |Retire(ends, p)| <= |ends|
  {
    if ends != [] && ends[0] <= p { RetireShrinks(ends[1..], p); }
  }

  // Retiring keeps exactly the ends beyond the position.
  lemma {:induction false} RetireExact(ends: seq<nat>, p: nat)
    requires Increasing(ends)
    ensures forall e :: e in Retire(ends, p) <==> e in ends && e > p
    ensures Increasing(Retire(ends, p))
  {
    if ends != [] && ends[0] <= p {
      RetireExact(ends[1..], p);
      assert ends == [ends[0]] + ends[1..];
    }
  }

  // Live descriptors are the packets ending after the reported position; none
  // is left when the position reaches the received total.
  lemma LiveDescriptors(v: View)
    requires Inv(v)
    ensures forall e :: e in v.live <==> e in v.packets && e > v.playedSource
    ensures v.playedSource == |v.stream.source| ==> v.live == []
  {
    RetireExact(v.packets, v.playedSource);
    if v.live != [] {
      assert v.live[0] in v.packets && v.live[0] > v.playedSource;
      var i :| 0 <= i < |v.packets| && v.packets[i] == v.live[0];
    }
  }

  // --- the building blocks ---------------------------------------------------

  lemma InitialOk(c: Config)
    requires WellConfigured(c)
    ensures Inv(Initial(c))
  {}

  lemma ResetOk(v: View)
    requires Inv(v)
    ensures Inv(Reset(v))
  {}

  lemma UpdateOk(v: View)
    requires Inv(v)
    ensures Inv(UpdateProgress(v))
  {
    RetireTwice(v.packets, v.playedSource, SourceProgress(v));
    RetireShrinks(v.live, SourceProgress(v));
  }

  lemma PostOk(v: View, kind: Kind)
    requires Inv(v)
    ensures Inv(Post(v, kind))
  {
    if v.generation != "" {
      UpdateOk(v);
      ProgressIsFloor(v);
      var u := UpdateProgress(v);
      var w := Post(v, kind);
      assert w.posted == u.posted + [w.posted[|u.posted|]];
      assert SourceProgress(w) == SourceProgress(u);
    }
  }

  lemma ClearOk(v: View, id: string)
    requires Inv(v)
    ensures Inv(Clear(v, id))
  {
    PostOk(v, Progress);
    ResetOk(Post(v, Progress));
  }

  // Everything the invariant mentions.
  ghost predicate SameFrames(v: View, w: View) {
    w == v.(generation := w.generation, pauseId := w.pauseId, paused := w.paused, started := w.started,
            rebuffering := w.rebuffering, lastChunk := w.lastChunk, lastPacket := w.lastPacket)
  }

  // Counters and flags the invariant does not mention may change freely.
  lemma SameFramesOk(v: View, w: View)
    requires Inv(v) && SameFrames(v, w)
    ensures Inv(w)
  {}

  lemma FailOk(v: View, reason: string)
    requires Inv(v)
    ensures Inv(Fail(v, reason))
  {
    assert v.config.outputRate > 0;
    hide Inv, Post, Clear;
    PostOk(v, Overflow(reason));
    ClearOk(Post(v, Overflow(reason)), v.generation);
  }

  // Accepting admitted audio keeps the ring within its capacity.
  lemma AcceptOk(v: View, samples: seq<real>, rate: nat)
    requires Inv(v) && rate > 0 && (v.stream.rate == 0 || v.stream.rate == rate) && !v.stream.done && samples != []
    requires Admits(v, |v.stream.source| + |samples|, rate)
    ensures Inv(Accept(v, samples, rate))
  {
    var w := Accept(v, samples, rate);
    var o := v.config.outputRate;
    EmittedMono(|v.stream.source|, |w.stream.source|, rate, o);
    EmittedWithinTarget(|w.stream.source|, rate, o);
    if v.stream.rate == 0 { assert v.stream.emitted == 0; }
    ProgressIsFloor(v);
    ProgressMonotone(v, w);
    RetireAppend(v.packets, v.playedSource, |w.stream.source|);
  }

  lemma WithRateOk(v: View, rate: nat)
    requires Inv(v) && rate > 0 && (v.stream.rate == 0 || v.stream.rate == rate)
    ensures Inv(WithRate(v, rate))
  {
    if v.stream.rate == 0 {
      assert v.stream.played == 0 && |v.stream.source| == 0;
      assert Target(0, rate, v.config.outputRate) == 0;
      assert Emitted(0, rate, v.config.outputRate) == 0;
    }
    ProgressMonotone(v, WithRate(v, rate));
  }

  // --- rendering and draining ------------------------------------------------

  lemma AdvancedOk(v: View, count: nat)
    requires Inv(v) && !v.completed && count <= Queued(v)
    ensures Inv(Advanced(v, count))
  {
    assert FramesOk(Advanced(v, count));
    ProgressMonotone(v, Advanced(v, count));
  }

  lemma RenderOk(v: View, count: nat)
    requires Inv(v) && !v.completed && count <= Queued(v)
    ensures Inv(Render(v, count))
  {
    AdvancedOk(v, count);
    UpdateOk(Advanced(v, count));
  }

  lemma CheckDrainOk(v: View)
    requires Inv(v)
    ensures Inv(CheckDrain(v))
  {
    if v.stream.done && Queued(v) == 0 && !v.completed {
      var u := v.(completed := true);
      assert Inv(u);
      PostOk(u, Progress);
      PostOk(Post(u, Progress), Completed);
    }
  }

  // The tail fits the ring: it was reserved when its packets were admitted.
  lemma EndedOk(v: View)
    requires Inv(v) && !v.stream.done
    ensures Inv(Ended(v))
  {
    if v.stream.source != [] { EmittedWithinTarget(|v.stream.source|, v.stream.rate, v.config.outputRate); }
    assert FramesOk(Ended(v));
    ProgressMonotone(v, Ended(v));
  }

  lemma FinishOk(v: View, id: string, sourceFrames: Option<int>)
    requires Inv(v)
    ensures Inv(Finish(v, id, sourceFrames))
  {
    if id == "" || id != v.generation || v.stream.done {
    } else if sourceFrames.Some? && sourceFrames.value != |v.stream.source| {
      FailOk(v, "incomplete_source_stream");
    } else {
      EndedOk(v);
      CheckDrainOk(Ended(v));
    }
  }

  lemma SetGenerationOk(v: View, id: string)
    requires Inv(v)
    ensures Inv(SetGeneration(v, id))
  {
    PostOk(v, Progress);
    ResetOk(Post(v, Progress));
  }

  lemma SetFormatOk(v: View, id: string, rate: int)
    requires Inv(v)
    ensures Inv(SetFormat(v, id, rate))
  {
    hide FramesOk, DescriptorsOk, ProgressOk, ReportsOk, Post, Fail, WithRate;
    if id != v.generation || v.stream.done {
    } else if !ValidRate(rate) || (v.stream.rate != 0 && v.stream.rate != rate) {
      FailOk(v, "invalid_format");
    } else {
      WithRateOk(v, rate);
      PostOk(WithRate(v, rate), Credit);
    }
  }

  lemma StampOk(v: View, rate: nat, meta: Metadata)
    requires Inv(v) && rate > 0 && (v.stream.rate == 0 || v.stream.rate == rate) && PacketInOrder(v, meta)
    ensures Inv(Stamp(v, rate, meta))
    ensures var w := Stamp(v, rate, meta);
            w.stream.rate == rate && w.stream.source == v.stream.source && w.stream.done == v.stream.done
              && w.generation == v.generation
  {
    WithRateOk(v, rate);
    SameFramesOk(WithRate(v, rate), Stamp(v, rate, meta));
  }

  lemma AdmitOk(v: View, samples: seq<real>, rate: nat)
    requires Inv(v) && rate > 0 && v.stream.rate == rate && !v.stream.done && samples != []
    ensures Inv(Admit(v, samples, rate))
  {
    assert v.config.outputRate > 0;
    if Admits(v, |v.stream.source| + |samples|, rate) {
      AcceptOk(v, samples, rate);
      hide Inv, Post, Accept, Admits;
      PostOk(Accept(v, samples, rate), Credit);
    } else {
      hide Inv, Fail, Admits;
      FailOk(v, "capacity");
    }
  }

  lemma DeliverOk(v: View, samples: seq<real>, rate: nat, meta: Metadata)
    requires Inv(v) && rate > 0 && (v.stream.rate == 0 || v.stream.rate == rate) && !v.stream.done && samples != []
    ensures Inv(Deliver(v, samples, rate, meta))
  {
    assert v.config.outputRate > 0;
    if PacketInOrder(v, meta) {
      StampOk(v, rate, meta);
      hide Inv, Admit, Stamp, PacketInOrder;
      AdmitOk(Stamp(v, rate, meta), samples, rate);
    } else {
      hide Inv, Fail, PacketInOrder;
      FailOk(v, "invalid_packet_order");
    }
  }

  lemma EnqueueOk(v: View, id: string, samples: seq<real>, rate: int, meta: Metadata)
    requires Inv(v)
    ensures Inv(Enqueue(v, id, samples, rate, meta))
  {
    if id == "" || id != v.generation || v.stream.done || samples == [] {
    } else if !AudioConsistent(v, samples, rate, meta) {
      FailOk(v, "invalid_audio");
    } else {
      DeliverOk(v, samples, rate, meta);
    }
  }

  lemma NoteUnderrunOk(v: View, count: nat, frames: nat)
    requires Inv(v)
    ensures Inv(NoteUnderrun(v, count, frames))
  {
    assert v.config.outputRate > 0;
    hide Inv, Post;
    var starved := v.(rebuffering := true);
    SameFramesOk(v, starved);
    PostOk(starved, Underrun);
  }

  lemma ProcessOk(v: View, frames: nat)
    requires Inv(v)
    ensures Inv(Process(v, frames))
  {
    if Renders(v) {
      var count := RenderCount(v, frames);
      RenderOk(v, count);
      hide Inv, Render, Post, NoteUnderrun, CheckDrain;
      var u := NoteUnderrun(Render(v, count), count, frames);
      NoteUnderrunOk(Render(v, count), count, frames);
      PostOk(u, Progress);
      CheckDrainOk(NoteProgress(u, count));
    }
  }

  lemma PauseOk(v: View, id: string, token: string)
    requires Inv(v)
    ensures Inv(Pause(v, id, token))
  {
    var u := v.(paused := true, pauseId := token);
    SameFramesOk(v, u);
    PostOk(u, PauseAck);
  }
}

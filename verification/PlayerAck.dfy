// Acknowledgements: which reports reach the session, how far they may lag, and
// why a sender waiting for credit is always answered.
module PlayerAck {
  import opened Arithmetic
  import opened Options
  import opened Resampling
  import opened PlayerModel
  import opened PlayerInvariant
  import opened PlayerRuns

  datatype Ack = Ack(frames: nat, source: nat)

  // The last forwarded report of an epoch; underrun and overflow are not forwarded.
  function LastAck(posted: seq<Report>, epoch: nat): Ack {
    if posted == [] then Ack(0, 0)
    else
      var r := posted[|posted| - 1];
      if r.epoch == epoch && Forwarded(r.kind) then Ack(r.playedFrames, r.playedSource)
      else LastAck(posted[..|posted| - 1], epoch)
  }

  function Acked(v: View): Ack { LastAck(v.posted, v.stream.epoch) }

  // The acknowledged position is the floor of the acknowledged frames, or the
  // whole source as it then was.
  ghost predicate AckPlace(a: Ack, rate: nat, o: nat)
    requires rate > 0
  {
    a.frames * rate < (a.source + 1) * o || a.frames <= Emitted(a.source, rate, o)
  }

  ghost predicate AckOk(v: View) {
    var a := Acked(v);
    && a.frames == v.lastReported
    && a.source * v.config.outputRate <= a.frames * v.stream.rate
    && a.source <= |v.stream.source|
    && !ReportDue(v.config, v.stream.played - v.lastReported)
    && (v.stream.played == v.stream.emitted ==> v.lastReported == v.stream.played)
    && (!v.stream.done && v.stream.rate > 0 ==> AckPlace(a, v.stream.rate, v.config.outputRate))
  }

  lemma {:induction false} NoAckYet(posted: seq<Report>, epoch: nat)
    requires forall i | 0 <= i < |posted| :: posted[i].epoch < epoch
    ensures LastAck(posted, epoch) == Ack(0, 0)
  {
    if posted != [] { NoAckYet(posted[..|posted| - 1], epoch); }
  }

  lemma ResetAck(v: View)
    requires Inv(v)
    ensures AckOk(Reset(v))
  {
    forall i | 0 <= i < |v.posted| ensures v.posted[i].epoch < v.stream.epoch + 1 { assert WithinView(v.posted[i], v); }
    NoAckYet(v.posted, v.stream.epoch + 1);
  }

  lemma PostAck(v: View, kind: Kind)
    requires v.config.outputRate > 0 && v.generation != ""
    ensures Acked(Post(v, kind)) ==
            if Forwarded(kind) then Ack(v.stream.played, SourceProgress(v)) else Acked(v)
    ensures Post(v, kind).lastReported == v.stream.played
  {
    var w := Post(v, kind);
    assert w.posted[..|w.posted| - 1] == v.posted;
  }

  // A position below the received total is the exact floor of the rendered count.
  lemma ProgressPlace(v: View)
    requires FramesOk(v) && !v.stream.done && v.stream.rate > 0
    ensures AckPlace(Ack(v.stream.played, SourceProgress(v)), v.stream.rate, v.config.outputRate)
  {
    ProgressIsFloor(v);
    if SourceProgress(v) != |v.stream.source| {
      DivBounds(v.stream.played * v.stream.rate, v.config.outputRate);
    }
  }

  // A forwarded report settles every acknowledgement condition at once.
  lemma ForwardedSettles(v: View, kind: Kind)
    requires Inv(v) && v.generation != "" && Forwarded(kind)
    ensures AckOk(Post(v, kind))
  {
    PostAck(v, kind);
    ProgressIsFloor(v);
    if !v.stream.done && v.stream.rate > 0 { ProgressPlace(v); }
  }

  // --- every event keeps the acknowledgement conditions ----------------------

  lemma FailAck(v: View, reason: string)
    requires Inv(v)
    ensures AckOk(Fail(v, reason))
  {
    PostOk(v, Overflow(reason));
    var u := Post(v, Overflow(reason));
    PostOk(u, Progress);
    ResetAck(Post(u, Progress));
  }

  lemma SetGenerationAck(v: View, id: string)
    requires Inv(v) && AckOk(v)
    ensures AckOk(SetGeneration(v, id))
  {
    PostOk(v, Progress);
    ResetAck(Post(v, Progress));
  }

  lemma ClearAck(v: View, id: string)
    requires Inv(v) && AckOk(v)
    ensures AckOk(Clear(v, id))
  {
    PostOk(v, Progress);
    ResetAck(Post(v, Progress));
  }

  // Before its rate is known nothing of a generation was played or reported.
  lemma RateAck(v: View, rate: nat)
    requires Inv(v) && AckOk(v) && rate > 0 && v.stream.rate in [0, rate]
    ensures AckOk(WithRate(v, rate))
  {
    if v.stream.rate == 0 {
      assert Acked(WithRate(v, rate)) == Acked(v);
      assert v.lastReported == 0;
    } else {
      assert WithRate(v, rate) == v;
    }
  }

  lemma SetFormatAck(v: View, id: string, rate: int)
    requires Inv(v) && AckOk(v)
    ensures AckOk(SetFormat(v, id, rate))
  {
    if id != v.generation || v.stream.done {
    } else if !ValidRate(rate) || (v.stream.rate != 0 && v.stream.rate != rate) {
      FailAck(v, "invalid_format");
    } else if v.generation == "" {
      RateAck(v, rate);
    } else {
      WithRateOk(v, rate);
      ForwardedSettles(WithRate(v, rate), Credit);
    }
  }

  lemma AdmitAck(v: View, samples: seq<real>, rate: nat)
    requires Inv(v) && v.generation != "" && rate > 0 && v.stream.rate == rate && !v.stream.done && samples != []
    ensures AckOk(Admit(v, samples, rate))
  {
    if Admits(v, |v.stream.source| + |samples|, rate) {
      AcceptOk(v, samples, rate);
      ForwardedSettles(Accept(v, samples, rate), Credit);
    } else {
      FailAck(v, "capacity");
    }
  }

  lemma EnqueueAck(v: View, id: string, samples: seq<real>, rate: int, meta: Metadata)
    requires Inv(v) && AckOk(v)
    ensures AckOk(Enqueue(v, id, samples, rate, meta))
  {
    if id == "" || id != v.generation || v.stream.done || samples == [] {
    } else if !AudioConsistent(v, samples, rate, meta) {
      FailAck(v, "invalid_audio");
    } else if !PacketInOrder(v, meta) {
      FailAck(v, "invalid_packet_order");
    } else {
      StampOk(v, rate, meta);
      assert Stamp(v, rate, meta).generation == v.generation;
      hide AckOk, Inv, Admit;
      AdmitAck(Stamp(v, rate, meta), samples, rate);
    }
  }

  lemma DrainAck(v: View)
    requires Inv(v) && AckOk(v) && (v.stream.done && Queued(v) == 0 && !v.completed ==> v.generation != "")
    ensures AckOk(CheckDrain(v))
  {
    if v.stream.done && Queued(v) == 0 && !v.completed {
      var u := v.(completed := true);
      assert Inv(u);
      PostOk(u, Progress);
      PostKeeps(u, Progress);
      ForwardedSettles(Post(u, Progress), Completed);
    }
  }

  lemma FinishAck(v: View, id: string, n: Option<int>)
    requires Inv(v) && AckOk(v)
    ensures AckOk(Finish(v, id, n))
  {
    hide Post, Increasing;
    if id == "" || id != v.generation || v.stream.done {
    } else if n.Some? && n.value != |v.stream.source| {
      FailAck(v, "incomplete_source_stream");
    } else {
      var u := Ended(v);
      EndedOk(v);
      if Queued(u) == 0 {
        var d := u.(completed := true);
        assert Inv(d);
        PostOk(d, Progress);
        PostKeeps(d, Progress);
        ForwardedSettles(Post(d, Progress), Completed);
      } else {
        assert Acked(u) == Acked(v);
      }
    }
  }

  lemma PauseAckOk(v: View, id: string, token: string)
    requires Inv(v) && AckOk(v)
    ensures AckOk(Pause(v, id, token))
  {
    var u := v.(paused := true, pauseId := token);
    SameFramesOk(v, u);
    if id != "" && id == v.generation && token != "" { ForwardedSettles(u, PauseAck); }
  }

  // A render quantum: if the ring ran dry or the lag reached the reporting
  // interval a progress report follows, so an underrun report, which resets the
  // interval without being forwarded, hides nothing.
  lemma RenderAck(v: View, count: nat, frames: nat)
    requires Inv(v) && AckOk(v) && v.generation != "" && !v.completed && count == Min(frames, Queued(v))
    ensures var w := NoteProgress(NoteUnderrun(Render(v, count), count, frames), count);
            AckOk(w) && Inv(w) && w.generation == v.generation
  {
    hide Post, LastAck, DescriptorsOk, CeilDiv, ReportsOk;
    RenderOk(v, count);
    var r := Render(v, count);
    NoteUnderrunOk(r, count, frames);
    var u := NoteUnderrun(r, count, frames);
    if r.started && count < frames && !r.stream.done && !r.rebuffering {
      PostAck(r.(rebuffering := true), Underrun);
      PostKeeps(r.(rebuffering := true), Underrun);
    }
    PostOk(u, Progress);
    PostKeeps(u, Progress);
    if count > 0 && (Queued(u) == 0 || ReportDue(u.config, u.stream.played - u.lastReported)) {
      ForwardedSettles(u, Progress);
    }
  }

  lemma ProcessAck(v: View, frames: nat)
    requires Inv(v) && AckOk(v)
    ensures AckOk(Process(v, frames))
  {
    if Renders(v) {
      RenderAck(v, RenderCount(v, frames), frames);
      hide Render, NoteUnderrun, NoteProgress, CheckDrain, Inv, AckOk;
      DrainAck(NoteProgress(NoteUnderrun(Render(v, RenderCount(v, frames)), RenderCount(v, frames), frames),
                            RenderCount(v, frames)));
    }
  }

  lemma StepAck(v: View, e: Event)
    requires Inv(v) && AckOk(v)
    ensures AckOk(Step(v, e))
  {
    match e
    case SetGenerationEvent(id) => SetGenerationAck(v, id);
    case FormatEvent(id, rate) => SetFormatAck(v, id, rate);
    case AudioEvent(id, samples, rate, meta) => EnqueueAck(v, id, samples, rate, meta);
    case DoneEvent(id, n) => FinishAck(v, id, n);
    case PauseEvent(id, token) => PauseAckOk(v, id, token);
    case ResumeEvent(id, token) => assert Acked(Resume(v, id, token)) == Acked(v);
    case ClearEvent(id) => ClearAck(v, id);
    case RenderEvent(frames) => ProcessAck(v, frames);
  }
}

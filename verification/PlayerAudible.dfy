// When the player is heard: never while it is paused, from the startup watermark
// on at first and from the low one after a gap, and otherwise as much as there is.
module PlayerAudible {
  import opened Arithmetic
  import opened Options
  import opened PlayerModel
  import opened PlayerInvariant
  import opened PlayerRuns

  // Too few frames wait in the ring to play for this many milliseconds.
  predicate Short(v: View, ms: real) { Queued(v) as real * 1000.0 < v.config.outputRate as real * ms }

  // Waiting for a watermark: at first for the startup one, after a gap for the low one.
  predicate Filling(v: View) {
    !v.stream.done && ((v.rebuffering && Short(v, v.config.lowMs))
                       || (!v.rebuffering && !v.started && Short(v, v.config.startupMs)))
  }

  // There is nobody to play to.
  predicate Idle(v: View) { v.generation == "" || v.paused || v.completed }

  lemma CeilLess(n: int, x: real)
    ensures n < Ceil(x) <==> n as real < x
  {
  }

  lemma ThresholdIs(v: View)
    ensures Queued(v) < Threshold(v) <==> Short(v, if v.rebuffering then v.config.lowMs else v.config.startupMs)
  {
    var ms := if v.rebuffering then v.config.lowMs else v.config.startupMs;
    CeilLess(Queued(v), v.config.outputRate as real * ms / 1000.0);
    hide Ceil;
  }

  // A quantum plays nothing, and changes nothing, when nobody listens or the
  // watermark is not reached; otherwise it plays all that fits.
  lemma HeardExactly(v: View, frames: nat)
    requires Inv(v)
    ensures |Audible(v, RenderEvent(frames))| == if Idle(v) || Filling(v) then 0 else Min(frames, Queued(v))
    ensures Idle(v) || Filling(v) ==> Step(v, RenderEvent(frames)) == v
  {
    ThresholdIs(v);
    assert Queued(v) >= 0;
    hide Threshold, Short, Inv, Render, NoteUnderrun, NoteProgress, CheckDrain;
  }

  // --- pausing ----------------------------------------------------------------

  // The token of the last pause asked for in this generation.
  function LastToken(id: string, token: string, events: seq<Event>): string
    decreases |events|
  {
    if events == [] then token
    else LastToken(id, if events[0].PauseEvent? && events[0].id == id && events[0].token != ""
                       then events[0].token else token, events[1..])
  }

  // Nobody resumes with the token of the pause that is open.
  predicate Unresumed(id: string, token: string, events: seq<Event>)
    decreases |events|
  {
    events == [] ||
    (events[0] != ResumeEvent(id, token)
     && Unresumed(id, LastToken(id, token, [events[0]]), events[1..]))
  }

  ghost predicate HeldBy(v: View, id: string, token: string) {
    v.generation == id && v.paused && v.pauseId == token
  }

  // One event: the pause stands, under the token of the last pause, or the
  // generation is over.
  lemma PauseStands(v: View, id: string, token: string, e: Event)
    requires Inv(v) && id != "" && token != "" && HeldBy(v, id, token) && e != ResumeEvent(id, token)
    ensures Audible(v, e) == []
    ensures Step(v, e).stream.epoch == v.stream.epoch ==> HeldBy(Step(v, e), id, LastToken(id, token, [e]))
    ensures LastToken(id, token, [e]) != ""
  {
    assert [e][1..] == [];
    match e
    case RenderEvent(frames) => HeardExactly(v, frames);
    case AudioEvent(_, samples, rate, meta) => EnqueuePause(v, e.id, samples, rate, meta);
    case FormatEvent(_, rate) => FormatPause(v, e.id, rate);
    case DoneEvent(_, n) => FinishPause(v, e.id, n);
    case PauseEvent(_, t) => PostPause(v.(paused := true, pauseId := t), PauseAck);
    case _ => hide Inv, Post;
  }

  lemma PostPause(v: View, kind: Kind)
    requires v.config.outputRate > 0
    ensures var w := Post(v, kind);
            w.paused == v.paused && w.pauseId == v.pauseId && w.generation == v.generation && w.stream == v.stream
  {
  }

  lemma EnqueuePause(v: View, id: string, samples: seq<real>, rate: int, meta: Metadata)
    requires v.config.outputRate > 0
    ensures var w := Enqueue(v, id, samples, rate, meta);
            w.stream.epoch == v.stream.epoch ==>
              w.paused == v.paused && w.pauseId == v.pauseId && w.generation == v.generation
  {
    hide Post, Fail, Admits, PacketInOrder;
    FailStarts(v, "invalid_audio");
    FailStarts(v, "invalid_packet_order");
    if ValidRate(rate) && PacketInOrder(v, meta) {
      var u := Stamp(v, rate, meta);
      FailStarts(u, "capacity");
      PostPause(Accept(u, samples, rate), Credit);
    }
  }

  lemma FormatPause(v: View, id: string, rate: int)
    requires v.config.outputRate > 0
    ensures var w := SetFormat(v, id, rate);
            w.stream.epoch == v.stream.epoch ==>
              w.paused == v.paused && w.pauseId == v.pauseId && w.generation == v.generation
  {
    hide Post, Fail;
    FailStarts(v, "invalid_format");
    if rate >= 0 { PostPause(WithRate(v, rate), Credit); }
  }

  lemma FinishPause(v: View, id: string, n: Option<int>)
    requires v.config.outputRate > 0 && (v.stream.source != [] ==> v.stream.rate > 0)
    ensures var w := Finish(v, id, n);
            w.stream.epoch == v.stream.epoch ==>
              w.paused == v.paused && w.pauseId == v.pauseId && w.generation == v.generation
  {
    hide Post, Fail;
    FailStarts(v, "incomplete_source_stream");
    var u := Ended(v).(completed := true);
    PostPause(u, Progress);
    PostPause(Post(u, Progress), Completed);
  }

  lemma {:induction false} EpochsGrow(r: Run, events: seq<Event>)
    requires RunOk(r)
    ensures After(r, events).view.stream.epoch >= r.view.stream.epoch
    decreases |events|
  {
    if events != [] {
      AdvanceOk(r, events[0]);
      StepMoves(r.view, events[0]);
      EpochsGrow(Advance(r, events[0]), events[1..]);
      hide Inv, Step, FrameStep;
    }
  }

  lemma LastTokenStep(id: string, token: string, events: seq<Event>)
    requires events != []
    ensures LastToken(id, token, events) == LastToken(id, LastToken(id, token, [events[0]]), events[1..])
  {
    assert [events[0]][1..] == [];
  }

  // From a pause that was taken until the resume with its token, or until the
  // generation is over, nothing is heard; and that resume ends it.
  lemma {:induction false} PausedIsSilent(r: Run, id: string, token: string, events: seq<Event>)
    requires RunOk(r) && id != "" && token != "" && HeldBy(r.view, id, token)
    requires Unresumed(id, token, events) && After(r, events).view.stream.epoch == r.view.stream.epoch
    ensures var q := After(r, events);
            && q.heard == r.heard && q.view.stream.played == r.view.stream.played
            && HeldBy(q.view, id, LastToken(id, token, events))
    decreases |events|
  {
    if events != [] {
      var e, n := events[0], Advance(r, events[0]);
      AdvanceOk(r, e);
      EpochsGrow(n, events[1..]);
      StepMoves(r.view, e);
      PauseStands(r.view, id, token, e);
      PausedIsSilent(n, id, LastToken(id, token, [e]), events[1..]);
      LastTokenStep(id, token, events);
    }
  }

  // A pause is taken in its own generation, under a token, and reported with it.
  lemma PauseTaken(v: View, id: string, token: string)
    requires Inv(v)
    ensures id == "" || id != v.generation || token == "" ==> Step(v, PauseEvent(id, token)) == v
    ensures id != "" && id == v.generation && token != "" ==>
            var w := Step(v, PauseEvent(id, token));
            && HeldBy(w, id, token) && w.stream == v.stream && |w.posted| == |v.posted| + 1
            && var r := w.posted[|v.posted|];
               r.kind == PauseAck && r.interruption == token && r.generation == id && r.playedFrames == v.stream.played
               && r.playedSource == SourceProgress(v)
  {
    hide Inv;
  }

  // No other token ends a pause, and its own ends it and changes nothing else.
  lemma ResumeExact(v: View, id: string, token: string, other: string, given: string)
    requires Inv(v) && id != "" && HeldBy(v, id, token)
    ensures Step(v, ResumeEvent(other, given)) ==
            if other == id && given == token then v.(paused := false, pauseId := "") else v
  {
    hide Inv;
  }

  // A user who interrupts hears nothing until the resume with the last token.
  lemma PauseToResume(r: Run, id: string, token: string, events: seq<Event>)
    requires RunOk(r) && id != "" && id == r.view.generation && token != "" && Unresumed(id, token, events)
    ensures var p := Advance(r, PauseEvent(id, token));
            && RunOk(p) && p.view.stream == r.view.stream && p.heard == r.heard
            && var q := After(p, events);
               q.view.stream.epoch == r.view.stream.epoch ==>
                 && q.heard == r.heard && q.view.paused
                 && !Step(q.view, ResumeEvent(id, LastToken(id, token, events))).paused
  {
    var e := PauseEvent(id, token);
    AdvanceOk(r, e);
    PauseTaken(r.view, id, token);
    var p := Advance(r, e);
    hide Inv, Step;
    if After(p, events).view.stream.epoch == r.view.stream.epoch {
      PausedIsSilent(p, id, token, events);
      var t := LastToken(id, token, events);
      ResumeExact(After(p, events).view, id, t, id, t);
    }
  }

  // --- watermarks over runs ---------------------------------------------------

  // Quanta have frames.
  predicate Quanta(events: seq<Event>) {
    forall i | 0 <= i < |events| :: events[i].RenderEvent? ==> events[i].frames > 0
  }

  // Playing has begun exactly when something of this generation was heard, and a
  // gap comes after that.
  ghost predicate Begun(v: View) { (v.started <==> v.stream.played > 0) && (v.rebuffering ==> v.started) }

  // One quantum: playing begins with the first sample, a quantum that runs short
  // before the source is done opens a gap, and a full one closes it.
  lemma QuantumGap(v: View, frames: nat)
    requires Inv(v) && frames > 0
    ensures var w, count := Step(v, RenderEvent(frames)), |Audible(v, RenderEvent(frames))|;
            && (w.started <==> v.started || count > 0)
            && (count == frames ==> !w.rebuffering)
            && (0 < count < frames ==> (w.rebuffering <==> !v.stream.done))
            && (count == 0 && v.rebuffering ==> w.rebuffering)
            && (count == 0 && !v.rebuffering ==>
                  (w.rebuffering <==> v.started && !v.stream.done && !Idle(v) && !Filling(v)))
  {
    HeardExactly(v, frames);
    if !(Idle(v) || Filling(v)) {
      ThresholdIs(v);
      assert Queued(v) >= 0;
      QuantumFlags(v, RenderCount(v, frames), frames);
    }
    hide Inv, Process, Short, Threshold, Audible;
    if !(Idle(v) || Filling(v)) { assert Renders(v) && Step(v, RenderEvent(frames)) == Process(v, frames); }
  }

  lemma QuantumFlags(v: View, count: nat, frames: nat)
    requires v.config.outputRate > 0 && Queued(v) >= 0 && count == Min(frames, Queued(v))
    ensures var w := CheckDrain(NoteProgress(NoteUnderrun(Render(v, count), count, frames), count));
            var r := Advanced(v, count);
            && w.started == r.started
            && w.rebuffering == (r.rebuffering || (r.started && count < frames && !v.stream.done))
  {
    var r := Render(v, count);
    var u := NoteUnderrun(r, count, frames);
    hide Post;
    PostKeeps(r.(rebuffering := true), Underrun);
    PostKeeps(u, Progress);
    var d := NoteProgress(u, count).(completed := true);
    PostKeeps(d, Progress);
    PostKeeps(Post(d, Progress), Completed);
  }

  // No other event opens or closes a gap; a new generation begins without one.
  lemma OthersGap(v: View, e: Event)
    requires Inv(v) && !e.RenderEvent?
    ensures var w := Step(v, e);
            if w.stream.epoch == v.stream.epoch
            then w.started == v.started && w.rebuffering == v.rebuffering && w.stream.played == v.stream.played
            else !w.started && !w.rebuffering && w.stream.played == 0
  {
    StepMoves(v, e);
    match e
    case SetGenerationEvent(id) => hide Inv; PostKeeps(v, Progress);
    case FormatEvent(id, rate) => FormatGap(v, id, rate);
    case AudioEvent(id, samples, rate, meta) => EnqueueGap(v, id, samples, rate, meta);
    case DoneEvent(id, n) => FinishGap(v, id, n);
    case PauseEvent(id, t) => PostKeeps(v.(paused := true, pauseId := t), PauseAck);
    case ResumeEvent(id, t) =>
    case ClearEvent(id) => hide Inv; PostKeeps(v, Progress);
  }

  predicate Bare(w: View) { !w.started && !w.rebuffering }

  lemma FailBare(v: View, reason: string)
    requires v.config.outputRate > 0
    ensures Bare(Fail(v, reason)) && Fail(v, reason).stream.epoch != v.stream.epoch
  {
    hide Post;
    PostKeeps(v, Overflow(reason));
    PostKeeps(Post(v, Overflow(reason)), Progress);
  }

  ghost predicate SameGap(v: View, w: View) {
    if w.stream.epoch == v.stream.epoch then w.started == v.started && w.rebuffering == v.rebuffering else Bare(w)
  }

  lemma FormatGap(v: View, id: string, rate: int)
    requires v.config.outputRate > 0
    ensures SameGap(v, SetFormat(v, id, rate))
  {
    hide Post, Fail;
    FailBare(v, "invalid_format");
    if rate >= 0 { PostKeeps(WithRate(v, rate), Credit); }
  }

  lemma EnqueueGap(v: View, id: string, samples: seq<real>, rate: int, meta: Metadata)
    requires v.config.outputRate > 0
    ensures SameGap(v, Enqueue(v, id, samples, rate, meta))
  {
    hide Post, Fail, Admits, PacketInOrder;
    FailBare(v, "invalid_audio");
    FailBare(v, "invalid_packet_order");
    if ValidRate(rate) && PacketInOrder(v, meta) {
      var u := Stamp(v, rate, meta);
      FailBare(u, "capacity");
      PostKeeps(Accept(u, samples, rate), Credit);
    }
  }

  lemma FinishGap(v: View, id: string, n: Option<int>)
    requires v.config.outputRate > 0 && (v.stream.source != [] ==> v.stream.rate > 0)
    ensures SameGap(v, Finish(v, id, n))
  {
    hide Post, Fail;
    FailBare(v, "incomplete_source_stream");
    var u := Ended(v).(completed := true);
    PostKeeps(u, Progress);
    PostKeeps(Post(u, Progress), Completed);
  }

  lemma BegunStep(r: Run, e: Event)
    requires RunOk(r) && Begun(r.view) && (e.RenderEvent? ==> e.frames > 0)
    ensures Begun(Advance(r, e).view)
  {
    StepMoves(r.view, e);
    if e.RenderEvent? { QuantumGap(r.view, e.frames); QuantumCount(r.view, e); } else { OthersGap(r.view, e); }
    hide Inv, Step, Audible;
  }

  lemma QuantumCount(v: View, e: Event)
    requires Inv(v)
    ensures |Audible(v, e)| == AudibleCount(v, e)
  {
  }

  lemma {:induction false} BegunRun(r: Run, events: seq<Event>)
    requires RunOk(r) && Begun(r.view) && Quanta(events)
    ensures Begun(After(r, events).view)
    decreases |events|
  {
    if events != [] {
      AdvanceOk(r, events[0]);
      BegunStep(r, events[0]);
      hide Begun, Inv, Step;
      BegunRun(Advance(r, events[0]), events[1..]);
    }
  }

  // Over any run: as long as nothing of a generation was heard, its first sample
  // waits for the startup watermark, or for the end of the source, and for nothing else.
  lemma FirstSample(config: Config, events: seq<Event>, frames: nat)
    requires WellConfigured(config) && Quanta(events) && frames > 0
    requires var v := After(Start(config), events).view; v.stream.played == 0 && !Idle(v)
    ensures var v := After(Start(config), events).view;
            |Audible(v, RenderEvent(frames))| == if !v.stream.done && Short(v, config.startupMs) then 0
                                                 else Min(frames, Queued(v))
  {
    BegunRun(Start(config), events);
    HeardExactly(After(Start(config), events).view, frames);
    hide Start, Short, Audible, Step, Inv;
  }

  // A gap stays open as long as nothing more is heard.
  lemma {:induction false} GapStays(r: Run, events: seq<Event>)
    requires RunOk(r) && r.view.rebuffering && Quanta(events)
    requires After(r, events).view.stream.epoch == r.view.stream.epoch && After(r, events).heard == r.heard
    ensures After(r, events).view.rebuffering
    decreases |events|
  {
    if events != [] {
      var e, n := events[0], Advance(r, events[0]);
      AdvanceOk(r, e);
      StepMoves(r.view, e);
      EpochsGrow(n, events[1..]);
      HeardGrows(n, events[1..]);
      QuantumCount(r.view, e);
      if e.RenderEvent? { QuantumGap(r.view, e.frames); } else { OthersGap(r.view, e); }
      hide Inv, Step, Audible;
      GapStays(n, events[1..]);
    }
  }

  lemma {:induction false} HeardGrows(r: Run, events: seq<Event>)
    requires RunOk(r) && After(r, events).view.stream.epoch == r.view.stream.epoch
    ensures r.heard <= After(r, events).heard
    decreases |events|
  {
    if events != [] {
      AdvanceOk(r, events[0]);
      StepMoves(r.view, events[0]);
      EpochsGrow(Advance(r, events[0]), events[1..]);
      hide Inv, Step, Audible;
      HeardGrows(Advance(r, events[0]), events[1..]);
    }
  }

  // Over any run: a quantum that runs short before the source is done opens a gap,
  // and the next sample waits for the low watermark, or for the end of the source,
  // however many events pass until then.
  lemma AfterGap(r: Run, asked: nat, events: seq<Event>, frames: nat)
    requires RunOk(r) && !r.view.stream.done && 0 < |Audible(r.view, RenderEvent(asked))| < asked
    requires Quanta(events) && RunOk(Advance(r, RenderEvent(asked)))
    requires var g := Advance(r, RenderEvent(asked)); var q := After(g, events);
             q.view.stream.epoch == r.view.stream.epoch && q.heard == g.heard && !Idle(q.view)
    ensures var v := After(Advance(r, RenderEvent(asked)), events).view;
            |Audible(v, RenderEvent(frames))| == if !v.stream.done && Short(v, v.config.lowMs) then 0
                                                 else Min(frames, Queued(v))
  {
    var g := Advance(r, RenderEvent(asked));
    QuantumGap(r.view, asked);
    StepMoves(r.view, RenderEvent(asked));
    EpochsGrow(g, events);
    hide Inv, Step, Audible, Short;
    GapStays(g, events);
    HeardExactly(After(g, events).view, frames);
  }

  // --- options ----------------------------------------------------------------

  // The option as given, within its bounds, or its default.
  predicate Taken(value: Option<real>, fallback: real, lo: real, hi: real, x: real) {
    && lo <= x <= hi && (value.None? ==> x == fallback)
    && (value.Some? ==> if value.value < lo then x == lo else if value.value > hi then x == hi else x == value.value)
  }

  // Playing starts with 30 milliseconds unless asked otherwise, goes on after a gap
  // with 10, and the ring holds 30 seconds; no watermark is above 100 milliseconds.
  lemma OptionsTaken(o: nat, startup: Option<real>, low: Option<real>, capacity: Option<real>)
    ensures var c := MakeConfig(o, startup, low, capacity);
            && c.outputRate == o && c.capacity >= 1
            && Taken(startup, 30.0, 0.0, 100.0, c.startupMs) && Taken(low, 10.0, 0.0, 100.0, c.lowMs)
            && exists ms: real :: Taken(capacity, 30000.0, 200.0, 30000.0, ms)
                 && (c.capacity == 1 || c.capacity as real * 1000.0 <= o as real * ms)
                 && o as real * ms < (c.capacity as real + 1.0) * 1000.0
  {
    var ms := Bounded(capacity, 30000.0, 200.0, 30000.0);
    assert Taken(capacity, 30000.0, 200.0, 30000.0, ms);
    var x := o as real * ms / 1000.0;
    assert x * 1000.0 == o as real * ms;
    var c := MakeConfig(o, startup, low, capacity);
    assert c.capacity == Max(1, x.Floor);
    assert c.capacity == 1 || c.capacity as real <= x;
    assert x < c.capacity as real + 1.0;
  }
}

// Whole runs of the player: any interleaving of port messages and render quanta.
module PlayerRuns {
  import opened Arithmetic
  import opened Options
  import opened Resampling
  import opened PlayerModel
  import opened PlayerInvariant

  datatype Event =
    | SetGenerationEvent(id: string)
    | FormatEvent(id: string, rate: int)
    | AudioEvent(id: string, samples: seq<real>, rate: int, meta: Metadata)
    | DoneEvent(id: string, sourceFrames: Option<int>)
    | PauseEvent(id: string, token: string)
    | ResumeEvent(id: string, token: string)
    | ClearEvent(id: string)
    | RenderEvent(frames: nat)

  ghost function Step(v: View, e: Event): (w: View)
    requires Inv(v)
    ensures Inv(w) && w.config == v.config
  {
    match e
    case SetGenerationEvent(id) => SetGenerationOk(v, id); SetGeneration(v, id)
    case FormatEvent(id, rate) => SetFormatOk(v, id, rate); SetFormat(v, id, rate)
    case AudioEvent(id, samples, rate, meta) => EnqueueOk(v, id, samples, rate, meta);
      Enqueue(v, id, samples, rate, meta)
    case DoneEvent(id, n) => FinishOk(v, id, n); Finish(v, id, n)
    case PauseEvent(id, token) => PauseOk(v, id, token); Pause(v, id, token)
    case ResumeEvent(id, token) => SameFramesOk(v, Resume(v, id, token)); Resume(v, id, token)
    case ClearEvent(id) => ClearOk(v, id); Clear(v, id)
    case RenderEvent(frames) => ProcessOk(v, frames); Process(v, frames)
  }

  ghost function AudibleCount(v: View, e: Event): (count: nat)
    requires v.stream.played <= v.stream.emitted
    ensures v.stream.played + count <= v.stream.emitted
  {
    if e.RenderEvent? then RenderCount(v, e.frames) else 0
  }

  // The first n output samples of a stream.
  ghost function Heard(s: Stream, o: nat, n: nat): (out: seq<real>)
    ensures |out| == n
  {
    Output(s.source, s.rate, o, n)
  }

  // What a render quantum puts on the output.
  ghost function Audible(v: View, e: Event): seq<real>
    requires v.stream.played <= v.stream.emitted
  {
    Heard(v.stream, v.config.outputRate, v.stream.emitted)[v.stream.played..v.stream.played + AudibleCount(v, e)]
  }

  // A state together with everything heard in the current epoch.
  datatype Run = Run(view: View, heard: seq<real>)

  ghost predicate RunOk(r: Run) {
    Inv(r.view) && r.heard == Heard(r.view.stream, r.view.config.outputRate, r.view.stream.played)
  }

  ghost function Advance(r: Run, e: Event): Run
    requires Inv(r.view)
  {
    var w := Step(r.view, e);
    Run(w, if w.stream.epoch != r.view.stream.epoch then [] else r.heard + Audible(r.view, e))
  }

  // How one event may move the frame counters: either a fresh epoch starts
  // empty, or the same source is extended and the rendered count advances by
  // what was audible.
  ghost predicate FrameStep(s: Stream, count: nat, t: Stream) {
    if t.epoch != s.epoch then
      t.epoch > s.epoch && t.played == 0 && t.source == []
    else
      && s.source <= t.source
      && (s.source != [] ==> t.rate == s.rate)
      && (s.done ==> t.source == s.source)
      && t.played == s.played + count
  }

  lemma PostKeeps(v: View, kind: Kind)
    requires v.config.outputRate > 0
    ensures Post(v, kind).stream == v.stream
    ensures Post(v, kind).generation == v.generation && Post(v, kind).paused == v.paused
    ensures Post(v, kind).started == v.started && Post(v, kind).rebuffering == v.rebuffering
    ensures Post(v, kind).completed == v.completed
  {}

  lemma ClearStarts(v: View, id: string)
    requires v.config.outputRate > 0 && (id == "" || id == v.generation)
    ensures Clear(v, id).stream == Stream(v.stream.epoch + 1, 0, [], 0, 0, false)
    ensures Clear(v, id).generation == ""
  {
    PostKeeps(v, Progress);
  }

  lemma FailStarts(v: View, reason: string)
    requires v.config.outputRate > 0
    ensures Fail(v, reason).stream == Stream(v.stream.epoch + 1, 0, [], 0, 0, false)
    ensures Fail(v, reason).generation == ""
  {
    PostKeeps(v, Overflow(reason));
    hide Clear;
    ClearStarts(Post(v, Overflow(reason)), v.generation);
  }

  lemma DrainKeeps(v: View)
    requires v.config.outputRate > 0
    ensures CheckDrain(v).stream == v.stream
    ensures CheckDrain(v).generation == v.generation && CheckDrain(v).paused == v.paused
    ensures CheckDrain(v).completed <==> v.completed || (v.stream.done && Queued(v) == 0)
  {
    if v.stream.done && Queued(v) == 0 && !v.completed {
      var u := v.(completed := true);
      hide Post;
      PostKeeps(u, Progress);
      PostKeeps(Post(u, Progress), Completed);
    }
  }

  lemma ProcessMoves(v: View, frames: nat)
    requires v.config.outputRate > 0 && Queued(v) >= 0
    ensures Process(v, frames).stream == v.stream.(played := v.stream.played + RenderCount(v, frames))
    ensures Process(v, frames).generation == v.generation && Process(v, frames).paused == v.paused
  {
    if Renders(v) {
      var count := RenderCount(v, frames);
      var r := Render(v, count);
      hide Post, CheckDrain;
      var u := NoteUnderrun(r, count, frames);
      PostKeeps(r.(rebuffering := true), Underrun);
      PostKeeps(u, Progress);
      DrainKeeps(NoteProgress(u, count));
    }
  }

  lemma EnqueueMoves(v: View, id: string, samples: seq<real>, rate: int, meta: Metadata)
    requires v.config.outputRate > 0
    ensures var t := Enqueue(v, id, samples, rate, meta).stream;
            || t == v.stream
            || t == Stream(v.stream.epoch + 1, 0, [], 0, 0, false)
            || (&& !v.stream.done && ValidRate(rate) && (v.stream.rate == 0 || v.stream.rate == rate)
                && t == v.stream.(rate := rate, source := v.stream.source + samples,
                                  emitted := Emitted(|v.stream.source| + |samples|, rate, v.config.outputRate)))
  {
    hide Post, Fail, Admits, PacketInOrder, Emitted;
    if id == "" || id != v.generation || v.stream.done || samples == [] {
    } else if !AudioConsistent(v, samples, rate, meta) {
      FailStarts(v, "invalid_audio");
    } else if !PacketInOrder(v, meta) {
      FailStarts(v, "invalid_packet_order");
    } else {
      var u := Stamp(v, rate, meta);
      FailStarts(u, "capacity");
      PostKeeps(Accept(u, samples, rate), Credit);
    }
  }

  lemma FinishMoves(v: View, id: string, n: Option<int>)
    requires v.config.outputRate > 0 && (v.stream.source != [] ==> v.stream.rate > 0)
    ensures var t := Finish(v, id, n).stream;
            || t == v.stream
            || t == Stream(v.stream.epoch + 1, 0, [], 0, 0, false)
            || (!v.stream.done && t == Ended(v).stream && t == v.stream.(done := true, emitted := t.emitted))
  {
    hide Fail, CheckDrain, Target;
    FailStarts(v, "incomplete_source_stream");
    DrainKeeps(Ended(v));
  }

  lemma FormatMoves(v: View, id: string, rate: int)
    requires v.config.outputRate > 0
    ensures var t := SetFormat(v, id, rate).stream;
            || t == v.stream
            || t == Stream(v.stream.epoch + 1, 0, [], 0, 0, false)
            || (&& ValidRate(rate) && (v.stream.rate == 0 || v.stream.rate == rate) && t == v.stream.(rate := rate))
  {
    hide Fail, Post;
    FailStarts(v, "invalid_format");
    if rate >= 0 { PostKeeps(WithRate(v, rate), Credit); }
  }

  lemma SetGenerationMoves(v: View, id: string)
    requires v.config.outputRate > 0
    ensures FrameStep(v.stream, 0, SetGeneration(v, id).stream)
  {
    hide Post;
    PostKeeps(v, Progress);
  }

  lemma ClearMoves(v: View, id: string)
    requires v.config.outputRate > 0
    ensures FrameStep(v.stream, 0, Clear(v, id).stream)
  {
    if id == "" || id == v.generation {
      hide Clear;
      ClearStarts(v, id);
    }
  }

  lemma PauseMoves(v: View, id: string, token: string)
    requires v.config.outputRate > 0
    ensures FrameStep(v.stream, 0, Pause(v, id, token).stream)
  {
    hide Post;
    PostKeeps(v.(paused := true, pauseId := token), PauseAck);
  }

  lemma StepMoves(v: View, e: Event)
    requires Inv(v)
    ensures FrameStep(v.stream, AudibleCount(v, e), Step(v, e).stream)
  {
    hide Increasing;
    assert v.config.outputRate > 0 && Queued(v) >= 0 && (v.stream.source != [] ==> v.stream.rate > 0);
    hide Inv, SetGeneration, Enqueue, Finish, SetFormat, Process, Pause, Clear, RenderCount, Ended;
    match e
    case SetGenerationEvent(id) => SetGenerationMoves(v, id);
    case FormatEvent(id, rate) => FormatMoves(v, id, rate);
    case AudioEvent(id, samples, rate, meta) => EnqueueMoves(v, id, samples, rate, meta);
    case DoneEvent(id, n) => FinishMoves(v, id, n);
    case PauseEvent(id, token) => PauseMoves(v, id, token);
    case ResumeEvent(id, token) =>
    case ClearEvent(id) => ClearMoves(v, id);
    case RenderEvent(frames) => ProcessMoves(v, frames);
  }

  // Nothing has been emitted before the first accepted frame.
  lemma SilentBeforeSource(v: View)
    requires FramesOk(v) && v.stream.source == []
    ensures v.stream.emitted == 0 && v.stream.played == 0
  {
    if v.stream.rate > 0 {
      assert Target(0, v.stream.rate, v.config.outputRate) == 0;
      assert Emitted(0, v.stream.rate, v.config.outputRate) == 0;
    }
  }

  // Output already decided survives any frame step within an epoch.
  lemma DecidedSurvives(v: View, count: nat, w: View)
    requires FramesOk(v) && w.config == v.config
    requires FrameStep(v.stream, count, w.stream) && w.stream.epoch == v.stream.epoch
    ensures Heard(w.stream, v.config.outputRate, v.stream.emitted) ==
            Heard(v.stream, v.config.outputRate, v.stream.emitted)
  {
    var s, t := v.stream, w.stream;
    assert t.source == s.source + t.source[|s.source|..];
    if s.source == [] {
      SilentBeforeSource(v);
    } else if s.done {
      assert t.source == s.source;
    } else {
      OutputStable(s.source, t.source[|s.source|..], s.rate, v.config.outputRate, s.emitted);
    }
  }

  // One event keeps what is heard equal to the batch conversion so far.
  lemma AdvanceOk(r: Run, e: Event)
    requires RunOk(r)
    ensures RunOk(Advance(r, e))
  {
    var v, w := r.view, Step(r.view, e);
    StepMoves(v, e);
    var o := v.config.outputRate;
    assert v.stream.played <= v.stream.emitted && FramesOk(v);
    hide Inv, Step, Output, Emitted, Target, RenderCount;
    if w.stream.epoch == v.stream.epoch {
      DecidedSurvives(v, AudibleCount(v, e), w);
      PrefixAppends(v.stream, o, v.stream.played, w.stream.played, v.stream.emitted);
      PrefixSame(w.stream, v.stream, o, w.stream.played, v.stream.emitted);
    }
  }

  // Rendering does not change what the samples are.
  lemma SameHeard(s: Stream, count: nat, o: nat, n: nat)
    ensures Heard(s.(played := s.played + count), o, n) == Heard(s, o, n)
  {}

  lemma PrefixAppends(s: Stream, o: nat, from: nat, to: nat, all: nat)
    requires from <= to <= all
    ensures Heard(s, o, from) + Heard(s, o, all)[from..to] == Heard(s, o, to)
  {}

  lemma PrefixSame(s: Stream, t: Stream, o: nat, n: nat, all: nat)
    requires n <= all && Heard(s, o, all) == Heard(t, o, all)
    ensures Heard(s, o, n) == Heard(t, o, n)
  {
    assert Heard(s, o, n) == Heard(s, o, all)[..n];
    assert Heard(t, o, n) == Heard(t, o, all)[..n];
  }

  ghost function After(r: Run, events: seq<Event>): (q: Run)
    requires RunOk(r)
    ensures RunOk(q) && q.view.config == r.view.config
    decreases |events|
  {
    if events == [] then r
    else
      AdvanceOk(r, events[0]);
      After(Advance(r, events[0]), events[1..])
  }

  ghost function Start(config: Config): (r: Run)
    requires WellConfigured(config)
    ensures RunOk(r)
  {
    InitialOk(config);
    Run(Initial(config), [])
  }

  // The main theorem: after any events whatsoever, what the current generation
  // has played is the start of the batch interpolation of everything it accepted.
  lemma StreamingIsBatch(config: Config, events: seq<Event>)
    requires WellConfigured(config)
    ensures var q := After(Start(config), events);
            var s := q.view.stream;
            && |q.heard| == s.played
            && (s.rate > 0 ==> q.heard <= Batch(s.source, s.rate, config.outputRate))
            && (s.rate > 0 && !s.done ==> s.played <= Emitted(|s.source|, s.rate, config.outputRate))
            && (s.rate > 0 && q.view.completed ==>
                  && q.heard == Batch(s.source, s.rate, config.outputRate)
                  && s.played == CeilDiv(|s.source| * config.outputRate, s.rate))
  {
    var q := After(Start(config), events);
    var s := q.view.stream;
    if s.rate > 0 {
      var n, o := |s.source|, config.outputRate;
      EmittedWithinTarget(n, s.rate, o);
      PrefixAppends(s, o, 0, s.played, Target(n, s.rate, o));
      assert q.heard == Batch(s.source, s.rate, o)[..s.played];
    }
  }

  // Packet boundaries, pauses and render sizes leave no trace: two completed
  // generations fed the same source at the same rate were heard identically.
  lemma SplitIndependent(config: Config, left: seq<Event>, right: seq<Event>)
    requires WellConfigured(config)
    requires After(Start(config), left).view.completed && After(Start(config), right).view.completed
    requires After(Start(config), left).view.stream.source == After(Start(config), right).view.stream.source
    requires After(Start(config), left).view.stream.rate == After(Start(config), right).view.stream.rate
    ensures After(Start(config), left).heard == After(Start(config), right).heard
  {
    StreamingIsBatch(config, left);
    StreamingIsBatch(config, right);
    var a, b := After(Start(config), left).view, After(Start(config), right).view;
    if a.stream.rate == 0 { assert a.stream.played == 0 && b.stream.played == 0; }
  }

  // Reports in any run: a position never exceeds what was received or rendered,
  // and within one generation positions never go back.
  lemma ReportsMonotone(config: Config, events: seq<Event>, i: nat, j: nat)
    requires WellConfigured(config)
    requires i < j < |After(Start(config), events).view.posted|
    ensures var posted := After(Start(config), events).view.posted;
            && posted[j].playedSource <= posted[j].received
            && posted[j].playedSource * config.outputRate <= posted[j].playedFrames * posted[j].sourceRate
            && (posted[i].epoch == posted[j].epoch ==> posted[i].playedSource <= posted[j].playedSource)
  {
    var v := After(Start(config), events).view;
    assert Inv(v);
    assert ReportOk(v.posted[j], config.outputRate);
    assert NotBefore(v.posted[i], v.posted[j]);
  }

  // The message log only grows, and new messages carry the epoch and the generation
  // they were posted in.
  ghost predicate PostsExtend(v: View, w: View) {
    && v.posted <= w.posted
    && (forall i | |v.posted| <= i < |w.posted| ::
          w.posted[i].epoch == v.stream.epoch && w.posted[i].generation == v.generation)
    && (v.generation == "" ==> w.posted == v.posted)
  }

  lemma PostExtends(v: View, kind: Kind)
    requires v.config.outputRate > 0
    ensures PostsExtend(v, Post(v, kind))
  {}

  lemma ExtendTwice(a: View, b: View, c: View)
    requires PostsExtend(a, b) && PostsExtend(b, c)
    requires b.stream.epoch == a.stream.epoch && b.generation == a.generation
    ensures PostsExtend(a, c)
  {}

  lemma FailExtends(v: View, reason: string)
    requires v.config.outputRate > 0
    ensures PostsExtend(v, Fail(v, reason))
  {
    var a := Post(v, Overflow(reason));
    PostExtends(v, Overflow(reason));
    PostKeeps(v, Overflow(reason));
    PostExtends(a, Progress);
    ExtendTwice(v, a, Post(a, Progress));
  }

  lemma DrainExtends(v: View)
    requires v.config.outputRate > 0
    ensures PostsExtend(v, CheckDrain(v))
  {
    var a := v.(completed := true);
    PostExtends(a, Progress);
    PostKeeps(a, Progress);
    PostExtends(Post(a, Progress), Completed);
    ExtendTwice(a, Post(a, Progress), Post(Post(a, Progress), Completed));
  }

  lemma ProcessExtends(v: View, frames: nat)
    requires v.config.outputRate > 0 && Queued(v) >= 0
    ensures PostsExtend(v, Process(v, frames))
  {
    if Renders(v) {
      var count := RenderCount(v, frames);
      var r := Render(v, count);
      var u := NoteUnderrun(r, count, frames);
      PostExtends(r.(rebuffering := true), Underrun);
      PostKeeps(r.(rebuffering := true), Underrun);
      PostExtends(u, Progress);
      PostKeeps(u, Progress);
      var w := NoteProgress(u, count);
      DrainExtends(w);
      hide Post, CheckDrain, Process;
      ExtendTwice(r, u, w);
      ExtendTwice(r, w, CheckDrain(w));
    }
  }

  lemma FormatExtends(v: View, id: string, rate: int)
    requires v.config.outputRate > 0
    ensures PostsExtend(v, SetFormat(v, id, rate))
  {
    hide Post, Fail;
    FailExtends(v, "invalid_format");
    if rate >= 0 { PostExtends(WithRate(v, rate), Credit); }
  }

  lemma FinishExtends(v: View, id: string, n: Option<int>)
    requires v.config.outputRate > 0 && (v.stream.source != [] ==> v.stream.rate > 0)
    ensures PostsExtend(v, Finish(v, id, n))
  {
    hide Fail, CheckDrain, Target;
    FailExtends(v, "incomplete_source_stream");
    DrainExtends(Ended(v));
  }

  lemma StepExtends(v: View, e: Event)
    requires Inv(v)
    ensures PostsExtend(v, Step(v, e))
  {
    hide Increasing;
    assert v.config.outputRate > 0 && Queued(v) >= 0 && (v.stream.source != [] ==> v.stream.rate > 0);
    hide Inv, Process, Post, SetFormat, Enqueue, Finish, SetGeneration, Clear, Pause, Resume, PostsExtend;
    match e
    case SetGenerationEvent(id) => SwitchExtends(v, id, "");
    case FormatEvent(id, rate) => FormatExtends(v, id, rate);
    case AudioEvent(id, samples, rate, meta) => EnqueueExtends(v, id, samples, rate, meta);
    case DoneEvent(id, n) => FinishExtends(v, id, n);
    case PauseEvent(id, token) => PauseExtends(v, id, token);
    case ResumeEvent(id, token) => PauseExtends(v, id, token);
    case ClearEvent(id) => SwitchExtends(v, "", id);
    case RenderEvent(frames) => ProcessExtends(v, frames);
  }

  lemma SwitchExtends(v: View, next: string, id: string)
    requires v.config.outputRate > 0
    ensures PostsExtend(v, SetGeneration(v, next)) && PostsExtend(v, Clear(v, id))
  {
    hide Post;
    PostExtends(v, Progress);
  }

  lemma PauseExtends(v: View, id: string, token: string)
    requires v.config.outputRate > 0
    ensures PostsExtend(v, Pause(v, id, token)) && PostsExtend(v, Resume(v, id, token))
  {
    hide Post;
    PostExtends(v.(paused := true, pauseId := token), PauseAck);
  }

  lemma EnqueueExtends(v: View, id: string, samples: seq<real>, rate: int, meta: Metadata)
    requires v.config.outputRate > 0
    ensures PostsExtend(v, Enqueue(v, id, samples, rate, meta))
  {
    hide Post, Fail, Admits, PacketInOrder, Emitted;
    FailExtends(v, "invalid_audio");
    FailExtends(v, "invalid_packet_order");
    if rate > 0 && PacketInOrder(v, meta) {
      var u := Stamp(v, rate, meta);
      FailExtends(u, "capacity");
      PostExtends(Accept(u, samples, rate), Credit);
    }
  }
}

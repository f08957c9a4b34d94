// The one fault of the protocol, a 4097th packet behind the reported position,
// cannot occur when packets are not tiny: 4096 of them then overfill two seconds.
module ProtocolDescriptors {
  import opened Options
  import opened Resampling
  import C = Client
  import F = Flow
  import M = PlayerModel
  import opened PlayerInvariant
  import R = PlayerRuns
  import opened Protocol
  import opened ProtocolInvariant
  import opened ProtocolSteps
  import opened ProtocolPlayer
  import opened ProtocolRuns

  // Packets of at least `least` frames, wherever they currently are.
  ghost predicate Spaced(ends: seq<nat>, least: nat) {
    forall i | 0 < i < |ends| :: ends[i] - ends[i - 1] >= least
  }

  ghost predicate WidePort(port: seq<R.Event>, least: nat) {
    forall i | 0 <= i < |port| :: port[i].AudioEvent? ==> |port[i].samples| >= least
  }

  ghost predicate WideDown(down: seq<Down>, least: nat) {
    forall i | 0 <= i < |down| :: down[i].Packet? ==> |down[i].samples| >= least
  }

  ghost predicate Wide(s: System, least: nat) {
    Spaced(s.player.view.packets, least) && WidePort(s.port, least) && WideDown(s.down, least)
  }

  lemma {:induction false} SpacedRetire(ends: seq<nat>, position: nat, least: nat)
    requires Spaced(ends, least)
    ensures Spaced(M.Retire(ends, position), least)
    ensures M.Retire(ends, position) != [] ==>
              M.Retire(ends, position)[0] > position
                && M.Retire(ends, position)[|M.Retire(ends, position)| - 1] == ends[|ends| - 1]
  {
    if ends != [] && ends[0] <= position {
      forall i | 0 < i < |ends[1..]| ensures ends[1..][i] - ends[1..][i - 1] >= least {
        assert ends[i + 1] - ends[i] >= least;
      }
      SpacedRetire(ends[1..], position, least);
    }
  }

  lemma {:induction false} SpacedSpan(ends: seq<nat>, k: nat, least: nat)
    requires Spaced(ends, least) && k < |ends|
    ensures ends[k] >= ends[0] + k * least
    decreases k
  {
    if k > 0 { SpacedSpan(ends, k - 1, least); }
  }

  // What was reported played and what the waiting packet ends at are within two seconds.
  lemma InFlight(u: Setup, s: System)
    requires Good(u, s) && s.port != [] && s.port[0].AudioEvent?
    ensures |s.port[0].samples| > 0 && Inv(s.player.view)
    ensures |s.player.view.stream.source| + |s.port[0].samples| <= s.player.view.playedSource + 2 * u.rate
  {
    var v := s.player.view;
    assert ReadPort(u, PlayerCursor(v), s.port[0]).Some?;
    var d := ReadPort(u, PlayerCursor(v), s.port[0]).value;
    hide DownSamples, PortSamples, SenderOk, R.RunOk, Inv;
    AfterPortForward(u, d, s.port[1..]);
    AfterPortFormat(u, d, s.port[1..]);
    Ordered(u, s);
  }

  // A full descriptor ring would hold more than the two seconds in flight.
  lemma NotFull(u: Setup, s: System, least: nat)
    requires Good(u, s) && Wide(s, least) && M.DESCRIPTORS * least >= 2 * u.rate
    requires s.port != [] && s.port[0].AudioEvent?
    ensures |s.player.view.live| != M.DESCRIPTORS
  {
    InFlight(u, s);
    var v := s.player.view;
    assert |s.port[0].samples| >= least && DescriptorsOk(v);
    hide Good, Inv;
    if |v.live| == M.DESCRIPTORS {
      SpacedRetire(v.packets, v.playedSource, least);
      SpacedSpan(v.live, M.DESCRIPTORS - 1, least);
    }
  }

  lemma PostPackets(v: M.View, kind: M.Kind)
    requires v.config.outputRate > 0
    ensures M.Post(v, kind).packets == v.packets
  {}

  lemma FailPackets(v: M.View, reason: string)
    requires v.config.outputRate > 0
    ensures M.Fail(v, reason).packets == []
  {
    R.PostKeeps(v, M.Overflow(reason));
  }

  lemma DrainPackets(v: M.View)
    requires v.config.outputRate > 0
    ensures M.CheckDrain(v).packets == v.packets
  {
    hide M.Post;
    var x := v.(completed := true);
    PostPackets(x, M.Progress);
    PostPackets(M.Post(x, M.Progress), M.Completed);
  }

  lemma ProcessPackets(v: M.View, frames: nat)
    requires v.config.outputRate > 0 && M.Queued(v) >= 0
    ensures M.Process(v, frames).packets == v.packets
  {
    if M.Renders(v) {
      var count := M.RenderCount(v, frames);
      var r := M.Render(v, count);
      var x := M.NoteUnderrun(r, count, frames);
      hide M.Post, M.CheckDrain;
      PostPackets(r.(rebuffering := true), M.Underrun);
      PostPackets(x, M.Progress);
      DrainPackets(M.NoteProgress(x, count));
    }
  }

  lemma EnqueuePackets(v: M.View, id: string, samples: seq<real>, rate: int, meta: M.Metadata)
    requires v.config.outputRate > 0
    ensures var packets := M.Enqueue(v, id, samples, rate, meta).packets;
            packets == v.packets || packets == [] || packets == v.packets + [|v.stream.source| + |samples|]
  {
    hide M.Post, M.Fail, M.Admits, M.PacketInOrder;
    FailPackets(v, "invalid_audio");
    FailPackets(v, "invalid_packet_order");
    if rate > 0 && M.PacketInOrder(v, meta) {
      var x := M.Stamp(v, rate, meta);
      FailPackets(x, "capacity");
      PostPackets(M.Accept(x, samples, rate), M.Credit);
    }
  }

  lemma FormatPackets(v: M.View, id: string, rate: int)
    requires v.config.outputRate > 0
    ensures var packets := M.SetFormat(v, id, rate).packets; packets == v.packets || packets == []
  {
    hide M.Post, M.Fail;
    FailPackets(v, "invalid_format");
    if rate >= 0 { PostPackets(M.WithRate(v, rate), M.Credit); }
  }

  lemma FinishPackets(v: M.View, id: string, n: Option<int>)
    requires v.config.outputRate > 0 && (v.stream.source != [] ==> v.stream.rate > 0)
    ensures var packets := M.Finish(v, id, n).packets; packets == v.packets || packets == []
  {
    hide M.Fail, M.CheckDrain, Target;
    FailPackets(v, "incomplete_source_stream");
    DrainPackets(M.Ended(v));
  }

  // Only accepted audio lengthens the packet list, by the new received total.
  lemma PacketsMove(v: M.View, e: R.Event)
    requires Inv(v)
    ensures var packets := R.Step(v, e).packets;
            packets == v.packets || packets == []
              || (e.AudioEvent? && packets == v.packets + [|v.stream.source| + |e.samples|])
  {
    assert v.config.outputRate > 0 && M.Queued(v) >= 0 && (v.stream.source != [] ==> v.stream.rate > 0);
    hide Inv, M.Process, M.Post, M.Enqueue, M.SetFormat, M.Finish;
    match e
    case SetGenerationEvent(id) => PostPackets(v, M.Progress);
    case FormatEvent(id, rate) => FormatPackets(v, id, rate);
    case AudioEvent(id, samples, rate, meta) => EnqueuePackets(v, id, samples, rate, meta);
    case DoneEvent(id, n) => FinishPackets(v, id, n);
    case PauseEvent(id, token) => PostPackets(v.(paused := true, pauseId := token), M.PauseAck);
    case ResumeEvent(id, token) =>
    case ClearEvent(id) => PostPackets(v, M.Progress);
    case RenderEvent(frames) => ProcessPackets(v, frames);
  }

  lemma StepSpaced(v: M.View, e: R.Event, least: nat)
    requires Inv(v) && Spaced(v.packets, least) && (e.AudioEvent? ==> |e.samples| >= least)
    ensures Spaced(R.Step(v, e).packets, least)
  {
    PacketsMove(v, e);
    assert v.packets != [] ==> v.packets[|v.packets| - 1] == |v.stream.source|;
    hide R.Step, Inv;
  }

  // What a move that leaves the player alone appends to the data queues.
  lemma QueuesWide(u: Setup, s: System, m: Move, least: nat)
    requires u.player.outputRate > 0 && Inv(s.player.view) && Enabled(u, s, m) && !m.PlayerReceiveMove? && !m.PlayMove?
    requires WidePort(s.port, least) && WideDown(s.down, least) && (m.SendMove? ==> |m.samples| >= least)
    ensures Next(u, s, m).player == s.player && WidePort(Next(u, s, m).port, least)
            && WideDown(Next(u, s, m).down, least)
  {
    hide Inv, R.Step, F.Acceptable, F.Updated, C.PacketReceived, C.ChunkStarted, C.PlayedTo, M.Forwarded, F.Available,
         FrameLimit;
    match m
    case BeginMove =>
    case SendMove(_) =>
    case SenderReceiveMove =>
    case SessionReceiveMove => if s.down[0].Packet? { assert |s.down[0].samples| >= least; }
    case DeliverMove =>
    case _ =>
  }

  lemma NextWide(u: Setup, s: System, m: Move, least: nat)
    requires Good(u, s) && Enabled(u, s, m) && Wide(s, least)
    requires m.SendMove? ==> |m.samples| >= least
    ensures Wide(Next(u, s, m), least)
  {
    assert Inv(s.player.view) && u.player.outputRate > 0;
    hide R.Step, Good, Inv;
    if m.PlayerReceiveMove? {
      StepSpaced(s.player.view, s.port[0], least);
    } else if m.PlayMove? {
      StepSpaced(s.player.view, R.RenderEvent(m.frames), least);
    } else {
      hide Next, Enabled, WidePort, WideDown, Spaced;
      QueuesWide(u, s, m, least);
    }
  }

  lemma {:induction false} ExecuteWide(u: Setup, s: System, moves: seq<Move>, least: nat)
    requires Sound(u, s) && s.fault == NoFault && Wide(s, least) && M.DESCRIPTORS * least >= 2 * u.rate
    requires forall i | 0 <= i < |moves| :: moves[i].SendMove? ==> |moves[i].samples| >= least
    ensures Execute(u, s, moves).fault == NoFault
    decreases |moves|
  {
    if moves != [] {
      assert SetupOk(u);
      hide Good, Wide, Next;
      if Enabled(u, s, moves[0]) {
        NextGood(u, s, moves[0]);
        NextWide(u, s, moves[0], least);
        if moves[0].PlayerReceiveMove? && s.port[0].AudioEvent? { NotFull(u, s, least); }
      }
      ExecuteWide(u, Try(u, s, moves[0]), moves[1..], least);
    }
  }

  // Packets of at least a 2048th of a second never trip the descriptor limit, so
  // no run of such packets fails anywhere. The server's packets hold 8192 frames
  // unless their chunk ends or credit cuts them short.
  lemma NeverFails(u: Setup, moves: seq<Move>, least: nat)
    requires SetupOk(u) && M.DESCRIPTORS * least >= 2 * u.rate
    requires forall i | 0 <= i < |moves| :: moves[i].SendMove? ==> |moves[i].samples| >= least
    ensures Reach(u, moves).fault == NoFault && Good(u, Reach(u, moves))
  {
    hide Good, Wide, Init, Execute;
    InitGood(u);
    InitWide(u, least);
    ExecuteWide(u, Init(u), moves, least);
    OpenRuns(u, Reach(u, moves));
  }

  lemma InitWide(u: Setup, least: nat)
    requires SetupOk(u)
    ensures Wide(Init(u), least) && Init(u).fault == NoFault
  {
    hide Good, Inv;
  }

  lemma OpenRuns(u: Setup, s: System)
    requires Sound(u, s) && s.fault == NoFault
    ensures Good(u, s)
  {
  }
}

// The player's side of the protocol: messages from the port are accepted, and
// reports travel back in order.
module ProtocolPlayer {
  import opened Arithmetic
  import opened Resampling
  import C = Client
  import M = PlayerModel
  import opened PlayerInvariant
  import R = PlayerRuns
  import A = PlayerAck
  import K = PlayerCredit
  import opened Protocol
  import opened ProtocolInvariant

  // --- reports on their way back ---------------------------------------------

  // A later report of the epoch is at or beyond every earlier acknowledgement.
  lemma {:induction false} AckBefore(v: M.View, n: nat, m: nat)
    requires Inv(v) && n <= m < |v.posted| && v.posted[m].epoch == v.stream.epoch
    ensures A.LastAck(v.posted[..n], v.stream.epoch).source <= v.posted[m].playedSource
    decreases n
  {
    if n > 0 {
      assert v.posted[..n][..n - 1] == v.posted[..n - 1];
      AckBefore(v, n - 1, m);
      assert NotBefore(v.posted[n - 1], v.posted[m]);
    }
  }

  lemma {:induction false} AfterPortFormat(u: Setup, c: Cursor, port: seq<R.Event>)
    requires AfterPort(u, c, port).Some? && c.format
    ensures AfterPort(u, c, port).value.format
    decreases |port|
  {
    if port != [] { AfterPortFormat(u, ReadPort(u, c, port[0]).value, port[1..]); }
  }

  // The report about to be delivered is a position the session accepts.
  lemma DeliverAccepted(u: Setup, s: System)
    requires Good(u, s) && CanDeliver(s)
    ensures var r := s.player.view.posted[s.delivered];
            && A.LastAck(s.player.view.posted[..s.delivered], s.player.view.stream.epoch).source <= r.playedSource
            && r.playedSource <= SessionCursor(u, s).value.received
            && 0 <= r.playedSource <= C.MAX_SAFE_INTEGER
            && (s.client.None? ==> r.playedSource == 0)
  {
    var v := s.player.view;
    var r := v.posted[s.delivered];
    AckBefore(v, s.delivered, s.delivered);
    Ordered(u, s);
    assert WithinView(r, v) && ReportOk(r, v.config.outputRate);
    FramesRepresentable(u, s.sender.flow.reserved);
    if s.client.None? {
      if v.stream.rate != 0 { AfterPortFormat(u, PlayerCursor(v), s.port); }
      assert v.playedSource == 0;
    }
  }

  lemma DeliveredAck(u: Setup, s: System)
    requires PlayerOk(u, s.player, s.delivered) && CanDeliver(s)
    ensures var v := s.player.view; var r := v.posted[s.delivered];
            A.LastAck(v.posted[..s.delivered + 1], v.stream.epoch)
            == if M.Forwarded(r.kind) then A.Ack(r.playedFrames, r.playedSource)
               else A.LastAck(v.posted[..s.delivered], v.stream.epoch)
  {
    var v := s.player.view;
    assert v.posted[..s.delivered + 1][..s.delivered] == v.posted[..s.delivered];
  }

  lemma DeliverGood(u: Setup, s: System)
    requires Good(u, s) && CanDeliver(s)
    ensures Deliver(s).fault == s.fault
    ensures SenderOk(u, Deliver(s).sender) && DataOk(u, Deliver(s)) && SessionOk(u, Deliver(s))
    ensures Deliver(s).player == s.player
  {
    DeliverAccepted(u, s);
    DeliveredAck(u, s);
    var t := Deliver(s);
    var r := s.player.view.posted[s.delivered];
    hide Inv, R.RunOk, A.AckOk, A.LastAck, AfterPort, AfterDown;
    if M.Forwarded(r.kind) && s.client.Some? {
      var k := Mark(s.sender.flow.capacity, s.sender.flow.received, s.sender.flow.played);
      var a := s.client.value.(played := r.playedSource);
      AfterUpAppend(u, k, s.up, C.CreditMsg(C.SnapshotOf(a)));
      AfterUpAppend(u, k, s.up + [C.CreditMsg(C.SnapshotOf(a))], C.ProgressMsg(a.played));
      assert t.up == s.up + [C.CreditMsg(C.SnapshotOf(a))] + [C.ProgressMsg(a.played)];
    }
  }

  // --- messages into the player ----------------------------------------------

  // What reading a port message in order does to the player, short of running
  // out of packet descriptors.
  ghost predicate Reads(v: M.View, d: Cursor, samples: seq<real>, w: M.View) {
    && w.stream.epoch == v.stream.epoch && w.generation == v.generation && PlayerCursor(w) == d
    && w.stream.source == v.stream.source + samples
    && (w.stream.rate == v.stream.rate || v.stream.rate == 0)
  }

  lemma ReadsFormat(u: Setup, v: M.View, e: R.Event)
    requires SetupOk(u) && Inv(v) && v.generation == u.generation && (v.stream.rate == 0 || v.stream.rate == u.rate)
    requires e.FormatEvent? && ReadPort(u, PlayerCursor(v), e).Some?
    ensures Reads(v, ReadPort(u, PlayerCursor(v), e).value, [], R.Step(v, e))
    ensures R.Step(v, e).stream.rate == u.rate
  {
    R.PostKeeps(M.WithRate(v, u.rate), M.Credit);
    PostCursor(M.WithRate(v, u.rate), M.Credit);
  }

  lemma PostCursor(v: M.View, kind: M.Kind)
    requires v.config.outputRate > 0
    ensures PlayerCursor(M.Post(v, kind)) == PlayerCursor(v)
  {}

  lemma ReadsDone(u: Setup, v: M.View, e: R.Event)
    requires SetupOk(u) && Inv(v) && v.generation == u.generation
    requires e.DoneEvent? && ReadPort(u, PlayerCursor(v), e).Some?
    ensures Reads(v, ReadPort(u, PlayerCursor(v), e).value, [], R.Step(v, e))
    ensures R.Step(v, e).stream.rate == v.stream.rate
  {
    var w := M.Ended(v);
    R.DrainKeeps(w);
    var x := w.(completed := true);
    PostCursor(x, M.Progress);
    PostCursor(M.Post(x, M.Progress), M.Completed);
  }

  lemma ReadsControl(u: Setup, v: M.View, e: R.Event)
    requires SetupOk(u) && Inv(v) && PauseEvent(u, e) && v.generation == u.generation
    ensures Reads(v, PlayerCursor(v), [], R.Step(v, e))
    ensures R.Step(v, e).stream.rate == v.stream.rate
  {
    if e.PauseEvent? {
      var x := v.(paused := true, pauseId := e.token);
      R.PostKeeps(x, M.PauseAck);
      PostCursor(x, M.PauseAck);
    }
  }

  // Audio within the session's window of an acknowledged position is admitted,
  // unless every packet descriptor is taken.
  lemma ReadsAudio(u: Setup, v: M.View, e: R.Event, acked: nat)
    requires SetupOk(u) && Inv(v) && v.generation == u.generation && v.config == u.player
    requires e.AudioEvent? && ReadPort(u, PlayerCursor(v), e).Some? && v.stream.rate == u.rate
    requires |v.live| != M.DESCRIPTORS && acked <= M.SourceProgress(v)
    requires |v.stream.source| + |e.samples| - acked <= 2 * u.rate
    requires |v.stream.source| + |e.samples| <= FrameLimit(u)
    ensures Reads(v, ReadPort(u, PlayerCursor(v), e).value, e.samples, R.Step(v, e))
    ensures R.Step(v, e).stream.rate == u.rate
  {
    hide M.Post;
    FramesRepresentable(u, |v.stream.source| + |e.samples|);
    StampOk(v, u.rate, e.meta);
    AudioFits(u, v, |v.stream.source| + |e.samples|, acked);
    var w := M.Stamp(v, u.rate, e.meta);
    assert M.Admits(w, |v.stream.source| + |e.samples|, u.rate);
    hide M.Admits, Inv, M.Post, M.AdvertisedCapacity;
    var x := M.Accept(w, e.samples, u.rate);
    R.PostKeeps(x, M.Credit);
    PostCursor(x, M.Credit);
  }

  lemma AudioFits(u: Setup, v: M.View, total: nat, acked: nat)
    requires SetupOk(u) && Inv(v) && v.config == u.player && v.stream.rate == u.rate
    requires acked <= M.SourceProgress(v) && total - acked <= 2 * u.rate
    ensures Target(total, u.rate, u.player.outputRate) - v.stream.played <= u.player.capacity
  {
    K.TwoSecondRing(u.player, u.rate);
    K.AdvertisedWindowFits(v, acked, total);
    LtCeil(-1, u.player.outputRate, u.rate);
  }

  // --- moves of the player ---------------------------------------------------

  // A step of the player that stays in its generation keeps the player's part.
  lemma PlayerStepOk(u: Setup, r: R.Run, e: R.Event, from: nat)
    requires SetupOk(u) && PlayerOk(u, r, from)
    requires var w := R.Step(r.view, e);
             && w.stream.epoch == r.view.stream.epoch && w.generation == u.generation
             && (w.stream.rate == 0 || w.stream.rate == u.rate)
    ensures PlayerOk(u, R.Advance(r, e), from)
    ensures r.view.posted <= R.Advance(r, e).view.posted
  {
    R.AdvanceOk(r, e);
    A.StepAck(r.view, e);
    R.StepExtends(r.view, e);
  }

  // Old reports are still there, so the session is acknowledged up to the same one.
  lemma SameAcked(s: System, w: M.View)
    requires s.player.view.posted <= w.posted && s.delivered <= |s.player.view.posted|
    ensures w.posted[..s.delivered] == s.player.view.posted[..s.delivered]
  {}

  // The audio at the head of the port fits, unless the descriptors are used up.
  lemma HeadAudio(u: Setup, s: System)
    requires Good(u, s) && s.port != [] && s.port[0].AudioEvent? && |s.player.view.live| != M.DESCRIPTORS
    ensures var v := s.player.view; var e := s.port[0];
            && ReadPort(u, PlayerCursor(v), e).Some?
            && Reads(v, ReadPort(u, PlayerCursor(v), e).value, e.samples, R.Step(v, e))
            && R.Step(v, e).stream.rate == u.rate
  {
    var v, e := s.player.view, s.port[0];
    var d := ReadPort(u, PlayerCursor(v), e).value;
    AfterPortForward(u, d, s.port[1..]);
    AfterPortFormat(u, d, s.port[1..]);
    Ordered(u, s);
    assert v.playedSource <= M.SourceProgress(v);
    hide M.SourceProgress, R.RunOk, A.AckOk, AfterPort, AfterDown, R.Step, Reads;
    ReadsAudio(u, v, e, s.client.value.played);
  }

  // Any message at the head of the port is read in order.
  lemma HeadReads(u: Setup, s: System)
    requires Good(u, s) && s.port != []
    requires s.port[0].AudioEvent? ==> |s.player.view.live| != M.DESCRIPTORS
    ensures var v := s.player.view; var e := s.port[0];
            && ReadPort(u, PlayerCursor(v), e).Some?
            && Reads(v, ReadPort(u, PlayerCursor(v), e).value, if e.AudioEvent? then e.samples else [], R.Step(v, e))
            && (R.Step(v, e).stream.rate == v.stream.rate || R.Step(v, e).stream.rate == u.rate)
  {
    var v, e := s.player.view, s.port[0];
    assert ReadPort(u, PlayerCursor(v), e).Some?;
    assert Inv(v);
    hide SenderOk, R.RunOk, A.AckOk, AfterPort, AfterDown, R.Step, Reads, Inv;
    match e
    case AudioEvent(_, _, _, _) => HeadAudio(u, s);
    case FormatEvent(_, _) => ReadsFormat(u, v, e);
    case DoneEvent(_, _) => ReadsDone(u, v, e);
    case _ => ReadsControl(u, v, e);
  }

  // The only way to fail: a 4097th packet waiting behind the reported position.
  lemma DescriptorsOut(u: Setup, s: System)
    requires Good(u, s) && s.port != [] && s.port[0].AudioEvent? && |s.player.view.live| == M.DESCRIPTORS
    ensures PlayerReceive(s).fault == DescriptorLimit
  {
    assert SetupOk(u) && Inv(s.player.view) && s.player.view.generation == u.generation
           && s.player.view.config == u.player;
    assert ReadPort(u, PlayerCursor(s.player.view), s.port[0]).Some?;
    hide Good, ReadPort, R.Step, Inv;
    NoDescriptor(u, s.player.view, s.port[0]);
  }

  lemma NoDescriptor(u: Setup, v: M.View, e: R.Event)
    requires SetupOk(u) && Inv(v) && v.generation == u.generation && v.config == u.player
    requires e.AudioEvent? && ReadPort(u, PlayerCursor(v), e).Some? && |v.live| == M.DESCRIPTORS
    ensures R.Step(v, e).stream.epoch == v.stream.epoch + 1
  {
    R.FailStarts(v, "invalid_audio");
    R.FailStarts(v, "invalid_packet_order");
    if M.PacketInOrder(v, e.meta) { R.FailStarts(M.Stamp(v, u.rate, e.meta), "capacity"); }
    hide M.Fail, Inv, M.PacketInOrder;
  }

  lemma HeadStep(u: Setup, s: System)
    requires Good(u, s) && s.port != []
    requires s.port[0].AudioEvent? ==> |s.player.view.live| != M.DESCRIPTORS
    ensures PlayerOk(u, R.Advance(s.player, s.port[0]), s.delivered)
    ensures s.player.view.posted <= R.Step(s.player.view, s.port[0]).posted
  {
    HeadReads(u, s);
    assert PlayerOk(u, s.player, s.delivered) && Inv(s.player.view);
    assert s.player.view.generation == u.generation
           && (s.player.view.stream.rate == 0 || s.player.view.stream.rate == u.rate);
    hide R.Step, PlayerOk, SenderOk, SessionOk, DataOk, Inv, PlayerCursor, ReadPort, R.Advance;
    PlayerStepOk(u, s.player, s.port[0], s.delivered);
    assert R.Advance(s.player, s.port[0]).view == R.Step(s.player.view, s.port[0]) by {
      AdvanceView(s.player, s.port[0]);
    }
  }

  lemma AdvanceView(r: R.Run, e: R.Event)
    requires Inv(r.view)
    ensures R.Advance(r, e).view == R.Step(r.view, e)
  {}

  lemma PlayerInv(u: Setup, s: System)
    requires Good(u, s)
    ensures SetupOk(u) && Inv(s.player.view)
  {
  }

  // Reading the head of the port moves its samples into the player and leaves
  // the session where it was.
  lemma HeadMoves(u: Setup, s: System)
    requires Good(u, s) && s.port != []
    requires s.port[0].AudioEvent? ==> |s.player.view.live| != M.DESCRIPTORS
    ensures PlayerReceive(s).fault == NoFault
    ensures SessionCursor(u, PlayerReceive(s)) == SessionCursor(u, s)
    ensures PlayerReceive(s).player.view.stream.epoch == s.player.view.stream.epoch
  {
    hide R.Step, R.Advance, Good, Inv, PlayerCursor, ReadPort;
    PlayerInv(u, s);
    HeadReads(u, s);
    AdvanceView(s.player, s.port[0]);
  }

  lemma HeadSamples(u: Setup, s: System)
    requires Good(u, s) && s.port != []
    requires s.port[0].AudioEvent? ==> |s.player.view.live| != M.DESCRIPTORS
    ensures PlayerReceive(s).player.view.stream.source + PortSamples(PlayerReceive(s).port)
            == s.player.view.stream.source + PortSamples(s.port)
  {
    hide R.Step, R.Advance, R.Audible, Good, Inv, PlayerCursor, ReadPort;
    PlayerInv(u, s);
    HeadReads(u, s);
    AdvanceView(s.player, s.port[0]);
    var samples := if s.port[0].AudioEvent? then s.port[0].samples else [];
    assert s.player.view.stream.source + samples + PortSamples(s.port[1..])
        == s.player.view.stream.source + (samples + PortSamples(s.port[1..]));
  }

  lemma PlayerReceiveGood(u: Setup, s: System)
    requires Good(u, s) && s.port != []
    ensures var t := PlayerReceive(s);
            if s.port[0].AudioEvent? && |s.player.view.live| == M.DESCRIPTORS then t.fault == DescriptorLimit
            else t.fault == NoFault && Good(u, t)
  {
    if s.port[0].AudioEvent? && |s.player.view.live| == M.DESCRIPTORS {
      DescriptorsOut(u, s);
    } else {
      assert Inv(s.player.view);
      hide R.Step, R.Advance, PlayerOk, Inv, A.LastAck, SessionCursor, AfterDown, PortSamples;
      HeadMoves(u, s);
      HeadSamples(u, s);
      HeadStep(u, s);
      AdvanceView(s.player, s.port[0]);
      SameAcked(s, PlayerReceive(s).player.view);
    }
  }

  lemma RenderKeeps(v: M.View, frames: nat)
    requires Inv(v)
    ensures PlayerCursor(M.Process(v, frames)) == PlayerCursor(v)
  {
    hide M.Post;
    if M.Renders(v) {
      var count := M.RenderCount(v, frames);
      var r := M.Render(v, count);
      PostCursor(r.(rebuffering := true), M.Underrun);
      var x := M.NoteUnderrun(r, count, frames);
      PostCursor(x, M.Progress);
      var y := M.NoteProgress(x, count);
      var z := y.(completed := true);
      hide Inv, M.Post;
      PostCursor(z, M.Progress);
      PostCursor(M.Post(z, M.Progress), M.Completed);
    }
  }

  lemma PlayGood(u: Setup, s: System, frames: nat)
    requires Good(u, s)
    ensures Play(s, frames).fault == s.fault && Good(u, Play(s, frames))
  {
    hide SenderOk;
    var v := s.player.view;
    var e := R.RenderEvent(frames);
    R.ProcessMoves(v, frames);
    RenderKeeps(v, frames);
    assert Inv(v);
    hide M.Process, Inv;
    PlayerStepOk(u, s.player, e, s.delivered);
    hide R.Step, PlayerOk, A.LastAck, AfterPort, AfterDown;
    SameAcked(s, Play(s, frames).player.view);
  }

  lemma ControlGood(u: Setup, s: System, e: R.Event)
    requires Good(u, s) && PauseEvent(u, e)
    ensures Control(s, e).fault == s.fault && Good(u, Control(s, e))
  {
    AfterPortAppend(u, PlayerCursor(s.player.view), s.port, e);
    PortSamplesAppend(s.port, e);
  }
}

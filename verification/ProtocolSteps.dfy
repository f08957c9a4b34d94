// Every move keeps the protocol invariant, so no party ever refuses another.
module ProtocolSteps {
  import opened Options
  import F = Flow
  import C = Client
  import M = PlayerModel
  import opened PlayerInvariant
  import R = PlayerRuns
  import A = PlayerAck
  import opened Protocol
  import opened ProtocolInvariant

  lemma InitGood(u: Setup)
    requires SetupOk(u)
    ensures Good(u, Init(u))
  {
    hide DescriptorsOk, ReportsOk;
    var v0 := M.Initial(u.player);
    InitialOk(u.player);
    SetGenerationOk(v0, u.generation);
    A.ResetAck(v0);
    var s := Init(u);
    assert R.Heard(s.player.view.stream, u.player.outputRate, 0) == [];
    assert s.player.view.posted == [];
  }

  // --- moves of the sender ---------------------------------------------------

  lemma BeginGood(u: Setup, s: System)
    requires Good(u, s) && CanBegin(s)
    ensures Good(u, Begin(s))
  {
    AfterDownAppend(SessionCursor(u, s).value, s.down, ChunkStarted);
    DownSamplesAppend(s.down, ChunkStarted);
  }

  lemma SendGood(u: Setup, s: System, samples: seq<real>)
    requires Good(u, s) && CanSend(u, s, samples)
    ensures Good(u, Send(s, samples))
  {
    var t := Send(s, samples);
    var m := t.down[|s.down|];
    assert t.down == s.down + [m];
    AfterDownAppend(SessionCursor(u, s).value, s.down, m);
    DownSamplesAppend(s.down, m);
    var source, port, down := s.player.view.stream.source, PortSamples(s.port), DownSamples(s.down);
    assert source + port + (down + samples) == (source + port + down) + samples;
  }

  lemma RecordGood(u: Setup, s: System)
    requires Good(u, s)
    ensures Good(u, Record(s))
  {}

  lemma FinishGood(u: Setup, s: System)
    requires Good(u, s) && CanFinish(s)
    ensures Good(u, FinishGeneration(s))
  {
    var m := GenerationDone(s.sender.timelineSent);
    AfterDownAppend(SessionCursor(u, s).value, s.down, m);
    DownSamplesAppend(s.down, m);
  }

  // An honest snapshot is always acceptable and never stale in order.
  lemma HonestAccepted(u: Setup, s: System)
    requires Good(u, s) && s.up != [] && s.up[0].CreditMsg?
    ensures F.Acceptable(s.sender.flow, s.up[0].credit) && !F.Stale(s.sender.flow, s.up[0].credit)
    ensures s.up[0].credit.capacity == 2 * u.rate
  {
    Ordered(u, s);
    var k := Mark(s.sender.flow.capacity, s.sender.flow.received, s.sender.flow.played);
    AfterUpForward(u, ReadUp(u, k, s.up[0]).value, s.up[1..]);
  }

  lemma SenderReceiveGood(u: Setup, s: System)
    requires Good(u, s) && s.up != []
    ensures SenderReceive(s).fault == s.fault && Good(u, SenderReceive(s))
  {
    var k := Mark(s.sender.flow.capacity, s.sender.flow.received, s.sender.flow.played);
    if s.up[0].CreditMsg? { HonestAccepted(u, s); }
    var t := SenderReceive(s);
    assert t.down == s.down && t.port == s.port && t.player == s.player;
    assert SessionCursor(u, t) == SessionCursor(u, s);
    assert t.sender.flow.reserved == s.sender.flow.reserved && SenderCursor(t.sender) == SenderCursor(s.sender);
  }

  // --- moves of the session --------------------------------------------------

  lemma SessionReceiveGood(u: Setup, s: System)
    requires Good(u, s) && s.down != []
    ensures SessionReceive(u, s).fault == s.fault && Good(u, SessionReceive(u, s))
  {
    match s.down[0]
    case ChunkStarted => StartedData(u, s); if s.client.None? { StartedOpens(u, s); } else { StartedAgain(u, s); }
    case Packet(_, _, _, _) => PacketSession(u, s); PacketData(u, s);
    case GenerationDone(_) => DoneGood(u, s);
  }

  lemma StartedData(u: Setup, s: System)
    requires M.ValidRate(u.rate) && SenderOk(u, s.sender) && DataOk(u, s) && SessionOk(u, s) && s.down != []
             && s.down[0].ChunkStarted?
    ensures DataOk(u, SessionReceive(u, s))
    ensures SessionCursor(u, SessionReceive(u, s)) == Some(SessionCursor(u, s).value.(format := true))
  {
    var e := R.FormatEvent(u.generation, u.rate);
    AfterPortAppend(u, PlayerCursor(s.player.view), s.port, e);
    PortSamplesAppend(s.port, e);
  }

  // The first chunk opens the session's audio and announces the full window.
  lemma StartedOpens(u: Setup, s: System)
    requires M.ValidRate(u.rate) && SenderOk(u, s.sender) && DataOk(u, s) && SessionOk(u, s)
    requires s.down != [] && s.down[0].ChunkStarted? && s.client.None?
    ensures SessionReceive(u, s).fault == s.fault && SessionOk(u, SessionReceive(u, s))
  {
    StartedData(u, s);
    hide DataOk, AfterPort, AfterDown, A.LastAck;
    var t := SessionReceive(u, s);
    var a := C.Opened(u.rate);
    assert t.up == [C.CreditMsg(C.SnapshotOf(a))];
    var k := Mark(s.sender.flow.capacity, s.sender.flow.received, s.sender.flow.played);
    assert ReadUp(u, k, t.up[0]) == Some(Mark(2 * u.rate, 0, 0));
    assert AfterUp(u, Mark(2 * u.rate, 0, 0), t.up[1..]) == Some(Mark(2 * u.rate, 0, 0));
    assert AfterUp(u, k, t.up) == Some(Mark(2 * u.rate, 0, 0));
  }

  lemma StartedAgain(u: Setup, s: System)
    requires M.ValidRate(u.rate) && SenderOk(u, s.sender) && DataOk(u, s) && SessionOk(u, s)
    requires s.down != [] && s.down[0].ChunkStarted? && s.client.Some?
    ensures SessionReceive(u, s).fault == s.fault && SessionOk(u, SessionReceive(u, s))
  {
    StartedData(u, s);
    hide DataOk, AfterPort, AfterDown, A.LastAck, AfterUp;
  }

  lemma PacketSession(u: Setup, s: System)
    requires Good(u, s) && s.down != [] && s.down[0].Packet?
    ensures SessionReceive(u, s).fault == s.fault && SessionOk(u, SessionReceive(u, s))
    ensures SessionCursor(u, SessionReceive(u, s)) == ReadDown(SessionCursor(u, s).value, s.down[0])
  {
    var t := SessionReceive(u, s);
    var m := s.down[0];
    var c := SessionCursor(u, s).value;
    Ordered(u, s);
    PacketWithinWindow(u, s);
    hide Good, PlayerOk, Inv, R.RunOk, A.AckOk;
    var e := R.AudioEvent(u.generation, m.samples, u.rate, PortMetadata(m.start, |m.samples|, m.chunk, m.packet));
    AfterPortAppend(u, PlayerCursor(s.player.view), s.port, e);
    var a := C.PacketReceived(s.client, WireMetadata(u, m.start, |m.samples|, m.chunk, m.packet),
                              |m.samples| * 2).value;
    AfterUpAppend(u, Mark(s.sender.flow.capacity, s.sender.flow.received, s.sender.flow.played), s.up,
                  C.CreditMsg(C.SnapshotOf(a)));
  }

  // The session accepts the packet: in order, and inside its two-second window.
  lemma PacketWithinWindow(u: Setup, s: System)
    requires Good(u, s) && s.down != [] && s.down[0].Packet?
    ensures s.client.Some?
    ensures var m := s.down[0]; var a := s.client.value;
            && C.PacketReceived(s.client, WireMetadata(u, m.start, |m.samples|, m.chunk, m.packet), |m.samples| * 2)
               == C.Ok(a.(received := a.received + |m.samples|, chunk := m.chunk, packet := m.packet))
  {
    var m := s.down[0];
    var c := SessionCursor(u, s).value;
    AfterDownForward(ReadDown(c, m).value, s.down[1..]);
    Ordered(u, s);
    AfterDownSafe(u, s);
  }

  lemma PacketData(u: Setup, s: System)
    requires Good(u, s) && s.down != [] && s.down[0].Packet?
    ensures DataOk(u, SessionReceive(u, s))
  {
    PacketSession(u, s);
    PacketWithinWindow(u, s);
    hide Good, PlayerOk, Inv, R.RunOk, A.AckOk, SessionOk, C.PacketReceived;
    var m := s.down[0];
    var e := R.AudioEvent(u.generation, m.samples, u.rate, PortMetadata(m.start, |m.samples|, m.chunk, m.packet));
    PortSamplesAppend(s.port, e);
    var source, port, down := s.player.view.stream.source, PortSamples(s.port), DownSamples(s.down[1..]);
    assert source + port + (m.samples + down) == source + (port + m.samples) + down;
  }

  lemma DoneGood(u: Setup, s: System)
    requires Good(u, s) && s.down != [] && s.down[0].GenerationDone?
    ensures SessionReceive(u, s).fault == s.fault && Good(u, SessionReceive(u, s))
  {
    hide PlayerOk;
    var e := R.DoneEvent(u.generation, Some(s.down[0].total));
    AfterPortAppend(u, PlayerCursor(s.player.view), s.port, e);
    PortSamplesAppend(s.port, e);
  }

  // Sequence numbers are bounded by the frames sent, hence exactly representable.
  lemma AfterDownSafe(u: Setup, s: System)
    requires Good(u, s) && s.down != [] && s.down[0].Packet?
    ensures 0 <= s.down[0].chunk <= C.MAX_SAFE_INTEGER && 0 <= s.down[0].packet <= C.MAX_SAFE_INTEGER
    ensures |s.down[0].samples| <= C.MAX_SAFE_INTEGER
  {
    var c := SessionCursor(u, s).value;
    Ordered(u, s);
    AfterDownForward(ReadDown(c, s.down[0]).value, s.down[1..]);
    hide Inv, A.AckOk, R.RunOk, PlayerOk, FrameLimit;
    FramesRepresentable(u, s.sender.flow.reserved);
  }
}

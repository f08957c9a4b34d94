// The credit-v1 protocol end to end: sender, downlink, session, worklet port,
// player, acknowledgement port and uplink, every queue first-in first-out and
// every party taking steps in any order.
module Protocol {
  import opened Arithmetic
  import opened Options
  import F = Flow
  import C = Client
  import M = PlayerModel
  import opened PlayerInvariant
  import R = PlayerRuns
  import K = PlayerCredit

  // Timing constants of one generation. negotiated: the client announced
  // credit-v1, so the sender starts with no window at all.
  datatype Setup = Setup(player: M.Config, generation: string, rate: nat, negotiated: bool)

  ghost predicate SetupOk(u: Setup) {
    && WellConfigured(u.player) && u.player.outputRate >= 8000 && u.generation != "" && M.ValidRate(u.rate)
    && 0.0 <= u.player.startupMs <= 100.0 && 0.0 <= u.player.lowMs <= 100.0
    && K.Room(u.player, u.rate) >= 2 * u.player.outputRate
  }

  datatype Down = ChunkStarted | Packet(start: int, samples: seq<real>, chunk: int, packet: int)
    | GenerationDone(total: int)

  // open: a speech chunk has been announced and has no packet yet.
  // unrecorded: frames written but not yet accounted as sent.
  datatype Sender = Sender(flow: F.FlowState, open: bool, chunk: int, packet: int, unrecorded: int,
                           timelineSent: int, timelinePlayed: int, finished: bool, produced: seq<real>)

  // Only the first fault is kept; afterwards nothing moves.
  datatype Fault = NoFault | DescriptorLimit | SenderRejects | SessionFails | PlayerFails

  datatype System = System(sender: Sender, down: seq<Down>, client: Option<C.Audio>, port: seq<R.Event>,
                           player: R.Run, delivered: nat, up: seq<C.Up>, fault: Fault)

  ghost function Init(u: Setup): System
    requires SetupOk(u)
  {
    var flow := F.Fresh(u.rate);
    InitialOk(u.player);
    System(Sender(if u.negotiated then F.CreditRequired(flow) else flow, false, -1, -1, 0, 0, 0, false, []),
           [], None, [], R.Run(M.SetGeneration(M.Initial(u.player), u.generation), []), 0, [], NoFault)
  }

  // --- the sender ------------------------------------------------------------

  // Registering the next speech chunk; every chunk has at least one frame.
  predicate CanBegin(s: System) { !s.sender.finished && !s.sender.open && s.sender.unrecorded == 0 }

  function Begin(s: System): System {
    s.(sender := s.sender.(open := true), down := s.down + [ChunkStarted])
  }

  function FrameLimit(u: Setup): int
    requires u.player.outputRate > 0
  {
    M.MAX_SAFE_INTEGER / Max(u.player.outputRate, u.rate)
  }

  // Reserve and write one packet. The frame total stays exactly representable.
  predicate CanSend(u: Setup, s: System, samples: seq<real>)
    requires u.player.outputRate > 0
  {
    && !s.sender.finished && (s.sender.open || s.sender.chunk >= 0) && s.sender.unrecorded == 0
    && 0 < |samples| <= F.Available(s.sender.flow)
    && s.sender.flow.reserved + |samples| <= FrameLimit(u)
  }

  function Send(s: System, samples: seq<real>): System {
    var d := s.sender;
    var chunk := if d.open then d.chunk + 1 else d.chunk;
    var packet := if d.open then 0 else d.packet + 1;
    s.(sender := d.(flow := F.Granted(d.flow, |samples|), open := false, chunk := chunk, packet := packet,
                    unrecorded := |samples|, produced := d.produced + samples),
       down := s.down + [Packet(d.flow.reserved, samples, chunk, packet)])
  }

  // RecordAudioSent: the write has completed; an acknowledgement that overtook
  // it is applied now.
  function Record(s: System): System {
    var d := s.sender;
    var sent := d.timelineSent + d.unrecorded;
    s.(sender := d.(unrecorded := 0, timelineSent := sent,
                    timelinePlayed := Max(d.timelinePlayed, Min(d.flow.played, sent))))
  }

  predicate CanFinish(s: System) { !s.sender.finished && !s.sender.open && s.sender.unrecorded == 0 }

  function FinishGeneration(s: System): System {
    s.(sender := s.sender.(finished := true), down := s.down + [GenerationDone(s.sender.timelineSent)])
  }

  // A session position at the sender: flow control in legacy mode, then the
  // timeline, clamped to what was sent.
  function Position(d: Sender, position: int): Sender {
    d.(flow := F.Acknowledged(d.flow, position),
       timelinePlayed := Max(d.timelinePlayed, Min(position, d.timelineSent)))
  }

  function SenderReceive(s: System): System
    requires s.up != []
  {
    var rest := s.(up := s.up[1..]);
    match s.up[0]
    case CreditMsg(c) =>
      if !F.Acceptable(s.sender.flow, c) then rest.(fault := SenderRejects)
      else
        var flow := F.Updated(s.sender.flow, c);
        rest.(sender := Position(s.sender.(flow := flow), flow.played))
    case ProgressMsg(p) => rest.(sender := Position(s.sender, p))
  }

  // --- the session -----------------------------------------------------------

  function WireMetadata(u: Setup, start: int, frames: nat, chunk: int, packet: int): C.Metadata {
    C.Metadata(chunk, packet, frames * 2, frames, start, u.rate, 1, 16)
  }

  function PortMetadata(start: int, frames: nat, chunk: int, packet: int): M.Metadata {
    M.Metadata(Some(frames), Some(start), Some(chunk), Some(packet))
  }

  function SessionReceive(u: Setup, s: System): System
    requires s.down != []
  {
    var rest := s.(down := s.down[1..]);
    match s.down[0]
    case ChunkStarted =>
      (match C.ChunkStarted(s.client, u.rate, 1, 16)
       case Err(_) => rest.(fault := SessionFails)
       case Ok(a) =>
         rest.(client := Some(a), port := s.port + [R.FormatEvent(u.generation, u.rate)],
               up := if s.client.None? then s.up + [C.CreditMsg(C.SnapshotOf(a))] else s.up))
    case Packet(start, samples, chunk, packet) =>
      (match C.PacketReceived(s.client, WireMetadata(u, start, |samples|, chunk, packet), |samples| * 2)
       case Err(_) => rest.(fault := SessionFails)
       case Ok(a) =>
         rest.(client := Some(a), up := s.up + [C.CreditMsg(C.SnapshotOf(a))],
               port := s.port + [R.AudioEvent(u.generation, samples, u.rate,
                                              PortMetadata(start, |samples|, chunk, packet))]))
    case GenerationDone(total) =>
      var received := if s.client.Some? then s.client.value.received else 0;
      if total != received then rest.(fault := SessionFails)
      else rest.(port := s.port + [R.DoneEvent(u.generation, Some(total))])
  }

  // A posted report reaches the session; all but underrun and overflow are acknowledgements.
  predicate CanDeliver(s: System) { s.delivered < |s.player.view.posted| }

  function Deliver(s: System): System
    requires CanDeliver(s)
  {
    var r := s.player.view.posted[s.delivered];
    var rest := s.(delivered := s.delivered + 1);
    if !M.Forwarded(r.kind) || s.client.None? then rest
    else
      match C.PlayedTo(s.client.value, r.playedSource)
      case Err(_) => rest.(fault := SessionFails)
      case Ok(a) =>
        if r.playedSource < s.client.value.played then rest
        else rest.(client := Some(a), up := s.up + [C.CreditMsg(C.SnapshotOf(a)), C.ProgressMsg(a.played)])
  }

  // --- the player ------------------------------------------------------------

  ghost function PlayerReceive(s: System): System
    requires s.port != [] && Inv(s.player.view)
  {
    var v := s.player.view;
    var next := R.Advance(s.player, s.port[0]);
    s.(port := s.port[1..], player := next,
       fault := if next.view.stream.epoch == v.stream.epoch then NoFault
                else if |v.live| == M.DESCRIPTORS then DescriptorLimit else PlayerFails)
  }

  ghost function Play(s: System, frames: nat): System
    requires Inv(s.player.view)
  {
    s.(player := R.Advance(s.player, R.RenderEvent(frames)))
  }

  predicate PauseEvent(u: Setup, e: R.Event) {
    match e
    case PauseEvent(id, token) => id == u.generation
    case ResumeEvent(id, token) => id == u.generation
    case _ => false
  }

  // Pausing and resuming travel through the same port as audio.
  function Control(s: System, e: R.Event): System { s.(port := s.port + [e]) }

  datatype Move = BeginMove | SendMove(samples: seq<real>) | RecordMove | FinishMove | SenderReceiveMove
                | SessionReceiveMove | DeliverMove | PlayerReceiveMove | PlayMove(frames: nat)
                | ControlMove(event: R.Event)

  ghost predicate Enabled(u: Setup, s: System, m: Move)
    requires u.player.outputRate > 0
  {
    && s.fault == NoFault
    && match m
       case BeginMove => CanBegin(s)
       case SendMove(samples) => CanSend(u, s, samples)
       case RecordMove => true
       case FinishMove => CanFinish(s)
       case SenderReceiveMove => s.up != []
       case SessionReceiveMove => s.down != []
       case DeliverMove => CanDeliver(s)
       case PlayerReceiveMove => s.port != []
       case PlayMove(_) => true
       case ControlMove(e) => PauseEvent(u, e)
  }

  ghost function Next(u: Setup, s: System, m: Move): System
    requires u.player.outputRate > 0 && Enabled(u, s, m) && Inv(s.player.view)
  {
    match m
    case BeginMove => Begin(s)
    case SendMove(samples) => Send(s, samples)
    case RecordMove => Record(s)
    case FinishMove => FinishGeneration(s)
    case SenderReceiveMove => SenderReceive(s)
    case SessionReceiveMove => SessionReceive(u, s)
    case DeliverMove => Deliver(s)
    case PlayerReceiveMove => PlayerReceive(s)
    case PlayMove(frames) => Play(s, frames)
    case ControlMove(e) => Control(s, e)
  }
}

// Pieces of runs: a packet on its way to the player, the report that its arrival
// sends back, and the credit that the report brings. Rendering a few frames before
// a packet arrives turns its arrival into just as much new credit.
module ProtocolCycles {
  import opened Arithmetic
  import F = Flow
  import M = PlayerModel
  import opened PlayerInvariant
  import R = PlayerRuns
  import A = PlayerAck
  import K = PlayerCredit
  import opened Protocol
  import opened ProtocolInvariant
  import opened ProtocolSteps
  import opened ProtocolPlayer
  import opened ProtocolRuns
  import D = ProtocolDescriptors

  // The source position that so many rendered frames reach.
  function Place(u: Setup, p: nat): int { if u.player.outputRate > 0 then p * u.rate / u.player.outputRate else 0 }

  // The sender may write a packet of the chunk at hand...
  predicate Ready(d: Sender) { !d.finished && d.unrecorded == 0 && (d.open || d.chunk >= 0) }

  // ...and knows the position of p rendered frames.
  predicate Window(u: Setup, d: Sender, p: nat) {
    Ready(d) && d.flow.capacity == 2 * u.rate && d.flow.played == Place(u, p)
  }

  // No data is on its way.
  ghost predicate Able(u: Setup, s: System, p: nat) {
    && Good(u, s) && s.fault == NoFault && s.down == [] && s.port == [] && s.client.Some?
    && Window(u, s.sender, p) && s.player.view.stream.played == p && !s.player.view.paused
  }

  // One packet waits in the port.
  ghost predicate Waiting(u: Setup, s: System, p: nat) {
    && Good(u, s) && s.fault == NoFault && s.down == [] && |s.port| == 1 && s.port[0].AudioEvent? && s.client.Some?
    && Ready(s.sender) && s.player.view.stream.played == p && !s.player.view.paused
  }

  ghost predicate Loaded(u: Setup, s: System, p: nat) { Waiting(u, s, p) && Window(u, s.sender, p) }

  // Moves that write nothing.
  predicate Neutral(m: Move) { !m.BeginMove? && !m.SendMove? && !m.FinishMove? }

  // --- runs in pieces ---------------------------------------------------------

  lemma {:induction false} ExecuteConcat(u: Setup, s: System, a: seq<Move>, b: seq<Move>)
    requires Sound(u, s)
    ensures Execute(u, s, a + b) == Execute(u, Execute(u, s, a), b)
    decreases |a|
  {
    hide Sound, Try;
    if a == [] {
      assert a + b == b;
    } else {
      assert (a + b)[1..] == a[1..] + b;
      ExecuteConcat(u, Try(u, s, a[0]), a[1..], b);
    }
  }

  lemma ExecuteOne(u: Setup, s: System, a: Move)
    requires Sound(u, s)
    ensures Execute(u, s, [a]) == Try(u, s, a)
  {
    hide Sound, Try;
    assert Execute(u, Try(u, s, a), []) == Try(u, s, a);
  }

  lemma ExecuteTwo(u: Setup, s: System, a: Move, b: Move)
    requires Sound(u, s)
    ensures Execute(u, s, [a, b]) == Try(u, Try(u, s, a), b)
  {
    hide Sound, Try, Execute;
    assert [a, b] == [a] + [b];
    ExecuteConcat(u, s, [a], [b]);
    ExecuteOne(u, s, a);
    ExecuteOne(u, Try(u, s, a), b);
  }

  lemma ExecuteThree(u: Setup, s: System, a: Move, b: Move, c: Move)
    requires Sound(u, s)
    ensures Execute(u, s, [a, b, c]) == Try(u, Try(u, Try(u, s, a), b), c)
  {
    hide Sound, Try, Execute;
    assert [a, b, c] == [a, b] + [c];
    ExecuteConcat(u, s, [a, b], [c]);
    ExecuteTwo(u, s, a, b);
    ExecuteOne(u, Try(u, Try(u, s, a), b), c);
  }

  // A move that is enabled in a good state is taken.
  lemma Taken(u: Setup, s: System, m: Move)
    requires Good(u, s) && s.fault == NoFault && Enabled(u, s, m)
    ensures Sound(u, s) && Inv(s.player.view) && u.player.outputRate > 0 && Try(u, s, m) == Next(u, s, m)
  {
    NextGood(u, s, m);
  }

  lemma GoodIsSound(u: Setup, s: System)
    requires Good(u, s) && s.fault == NoFault
    ensures Sound(u, s) && SetupOk(u) && Inv(s.player.view)
  {
  }

  // Deliver every report and hand every message to the sender.
  ghost function SettleMoves(u: Setup, s: System): (moves: seq<Move>)
    requires Sound(u, s) && s.delivered <= |s.player.view.posted|
    ensures forall i | 0 <= i < |moves| :: Neutral(moves[i])
  {
    var reports := Repeat(DeliverMove, |s.player.view.posted| - s.delivered);
    reports + Repeat(SenderReceiveMove, |Execute(u, s, reports).up|)
  }

  lemma SettleRuns(u: Setup, s: System)
    requires Sound(u, s) && s.delivered <= |s.player.view.posted|
    ensures Execute(u, s, SettleMoves(u, s)) == Settled(u, s)
  {
    hide Sound, Execute, Repeat, Neutral;
    var reports := Repeat(DeliverMove, |s.player.view.posted| - s.delivered);
    var t := Execute(u, s, reports);
    var receipts := Repeat(SenderReceiveMove, |t.up|);
    assert Settled(u, s) == Execute(u, t, receipts);
    ExecuteConcat(u, s, reports, receipts);
  }

  // --- the sender learns ------------------------------------------------------

  // When the last report names the position of everything rendered, the sender
  // knows it once all has been delivered.
  lemma Informs(u: Setup, s: System, p: nat)
    requires Good(u, s) && s.fault == NoFault && s.down == [] && s.port == [] && s.client.Some? && Ready(s.sender)
    requires A.Acked(s.player.view).source == Place(u, p)
    requires s.player.view.stream.played == p && !s.player.view.paused
    ensures Sound(u, s) && s.delivered <= |s.player.view.posted|
    ensures var t := Execute(u, s, SettleMoves(u, s));
            && Able(u, t, p) && Quiet(t) && t.player == s.player
            && t.sender.flow.reserved == s.sender.flow.reserved
            && t.sender.open == s.sender.open && t.sender.chunk == s.sender.chunk
  {
    DeliveredSome(u, s);
    GoodIsSound(u, s);
    hide Good, Settled, SettleMoves, Execute, Place, A.Acked;
    SettledQuiet(u, s);
    SettleRuns(u, s);
    var t := Settled(u, s);
    QuietAgrees(u, t);
  }

  lemma DeliveredSome(u: Setup, s: System)
    requires Good(u, s)
    ensures s.delivered <= |s.player.view.posted|
  {
    hide PlayerOk, SenderOk, DataOk;
  }

  // --- a packet is written ----------------------------------------------------

  function Write(samples: seq<real>): seq<Move> { [SendMove(samples), RecordMove, SessionReceiveMove] }

  lemma Loads(u: Setup, s: System, p: nat, samples: seq<real>)
    requires Able(u, s, p) && u.player.outputRate > 0 && CanSend(u, s, samples)
    ensures Sound(u, s)
    ensures var t := Execute(u, s, Write(samples));
            && Loaded(u, t, p) && t.player == s.player && |t.port[0].samples| == |samples|
            && t.sender.flow.reserved == s.sender.flow.reserved + |samples|
  {
    hide Good, Send, Record, SessionReceive, CanSend, Try, Execute, Inv, Place;
    Written(u, s, samples);
    var w := Send(s, samples);
    var x := Record(w);
    var y := SessionReceive(u, x);
    SenderWrites(u, s, p, samples);
    Taken(u, s, SendMove(samples));
    Taken(u, w, RecordMove);
    Taken(u, x, SessionReceiveMove);
    ExecuteThree(u, s, SendMove(samples), RecordMove, SessionReceiveMove);
  }

  lemma SenderWrites(u: Setup, s: System, p: nat, samples: seq<real>)
    requires Window(u, s.sender, p) && s.fault == NoFault && s.sender.chunk >= -1
    ensures var x := Record(Send(s, samples));
            && Send(s, samples).fault == NoFault && x.fault == NoFault && Window(u, x.sender, p)
            && x.sender.flow.reserved == s.sender.flow.reserved + |samples|
  {
    hide Place;
  }

  lemma CanWrite(u: Setup, s: System, p: nat, samples: seq<real>)
    requires Able(u, s, p) && samples != []
    requires s.sender.flow.reserved + |samples| <= 2 * u.rate + Place(u, p)
    requires SetupOk(u) && s.sender.flow.reserved + |samples| <= FrameLimit(u)
    ensures CanSend(u, s, samples)
  {
    hide Good, Place, FrameLimit, K.Room;
  }

  // The packet is written, recorded and handed on by the session.
  lemma Written(u: Setup, s: System, samples: seq<real>)
    requires Good(u, s) && s.fault == NoFault && s.down == [] && s.port == [] && s.client.Some?
    requires u.player.outputRate > 0 && CanSend(u, s, samples)
    ensures s.sender.chunk >= -1
    ensures var x := Record(Send(s, samples));
      && Good(u, Send(s, samples)) && Good(u, x) && x.down != [] && x.sender.chunk >= 0
      && var y := SessionReceive(u, x);
         && Good(u, y) && y.fault == NoFault && y.down == [] && |y.port| == 1 && y.port[0].AudioEvent?
         && y.port[0].samples == samples
         && y.client.Some? && y.player == s.player && y.sender == x.sender
  {
    assert s.sender.chunk >= -1;
    NextGood(u, s, SendMove(samples));
    NextGood(u, Send(s, samples), RecordMove);
    var x := Record(Send(s, samples));
    NextGood(u, x, SessionReceiveMove);
    PacketWithinWindow(u, x);
    hide Good;
  }

  // --- frames are rendered ----------------------------------------------------

  lemma Plays(v: M.View, k: nat)
    requires Inv(v) && M.RenderCount(v, k) == k
    ensures Inv(M.Process(v, k))
    ensures var w := M.Process(v, k);
            && w.stream == v.stream.(played := v.stream.played + k) && w.packets == v.packets
            && w.generation == v.generation && w.paused == v.paused && w.config == v.config
  {
    ProcessOk(v, k);
    assert v.config.outputRate > 0 && M.Queued(v) >= 0;
    hide Inv, M.Process, M.RenderCount;
    R.ProcessMoves(v, k);
    D.ProcessPackets(v, k);
  }

  // With a second of source ahead of the last report there is something to render.
  lemma CanPlay(v: M.View, k: nat)
    requires K.Ahead(v, 1) && 2 * k <= v.config.outputRate
    ensures Inv(v) && M.RenderCount(v, k) == k
  {
    K.AheadQueue(v, 1);
    hide M.Threshold, M.Queued, A.AckOk, A.Acked;
    assert !v.completed;
  }

  // --- the packet arrives -----------------------------------------------------

  // What was reserved is in the player or waits in the port.
  lemma WaitingSource(u: Setup, s: System, p: nat)
    requires Waiting(u, s, p)
    ensures Sound(u, s) && SetupOk(u) && Inv(s.player.view) && A.AckOk(s.player.view)
    ensures var v := s.player.view;
            && |v.stream.source| + |s.port[0].samples| == s.sender.flow.reserved && |s.port[0].samples| > 0
            && v.stream.rate == u.rate && !v.stream.done && v.generation == u.generation && v.config == u.player
  {
    assert ReadPort(u, PlayerCursor(s.player.view), s.port[0]).Some?;
    assert PortSamples(s.port) == s.port[0].samples + PortSamples([]);
    assert s.port[1..] == [];
    hide A.AckOk, Inv;
  }

  // The position of everything rendered is below what the sender reserved.
  lemma AckedBehind(v: M.View)
    requires Inv(v) && A.AckOk(v) && v.config.outputRate > 0
    ensures A.Acked(v).source <= v.stream.played * v.stream.rate / v.config.outputRate
  {
    var a := A.Acked(v);
    assert a.frames <= v.stream.played && a.source * v.config.outputRate <= a.frames * v.stream.rate;
    hide Inv, A.AckOk, A.Acked;
    MulMono(a.frames, v.stream.played, v.stream.rate);
    LeFloor(a.source, v.stream.played * v.stream.rate, v.config.outputRate);
  }

  lemma WaitingAhead(u: Setup, s: System, p: nat)
    requires Waiting(u, s, p) && |s.player.view.stream.source| - Place(u, p) >= u.rate
    ensures K.Ahead(s.player.view, 1)
  {
    WaitingSource(u, s, p);
    AckedBehind(s.player.view);
    hide Good, A.Acked, A.AckOk, Inv, Ready;
  }

  // An accepted packet is reported at once, with everything rendered so far.
  lemma AdmissionReports(v: M.View, samples: seq<real>, rate: nat)
    requires v.config.outputRate > 0 && rate > 0 && v.generation != ""
    ensures var w := M.Admit(v, samples, rate);
            w.stream.epoch == v.stream.epoch ==>
              && A.Acked(w) == A.Ack(v.stream.played, M.SourceProgress(w))
              && w.paused == v.paused && w.stream.played == v.stream.played
  {
    R.FailStarts(v, "capacity");
    var x := M.Accept(v, samples, rate);
    A.PostAck(x, M.Credit);
    R.PostKeeps(x, M.Credit);
    hide M.Fail, M.Post, M.Admits, A.Acked, M.SourceFrames;
  }

  lemma ArrivalReports(v: M.View, id: string, samples: seq<real>, rate: int, meta: M.Metadata)
    requires v.config.outputRate > 0
    ensures var w := M.Enqueue(v, id, samples, rate, meta);
            w.stream.epoch == v.stream.epoch && |w.stream.source| > |v.stream.source| ==>
              && A.Acked(w) == A.Ack(v.stream.played, M.SourceProgress(w))
              && w.paused == v.paused && w.stream.played == v.stream.played
  {
    hide M.Fail, M.Admit, A.Acked, M.SourceProgress;
    R.FailStarts(v, "invalid_audio");
    R.FailStarts(v, "invalid_packet_order");
    if rate > 0 && M.PacketInOrder(v, meta) && v.generation != "" {
      AdmissionReports(M.Stamp(v, rate, meta), samples, rate);
    }
  }

  // Receiving anything but audio that is not refused renders and queues nothing.
  lemma PlayerKeeps(u: Setup, s: System)
    requires Good(u, s) && s.fault == NoFault && s.port != []
    requires s.port[0].AudioEvent? ==> |s.player.view.live| != M.DESCRIPTORS
    ensures var t := PlayerReceive(s);
      && Good(u, t) && t.fault == NoFault
      && t == s.(port := s.port[1..], player := t.player)
      && (!s.port[0].RenderEvent? ==> t.player.view.stream.played == s.player.view.stream.played)
      && (t.player.view.packets == s.player.view.packets || t.player.view.packets == []
          || (s.port[0].AudioEvent?
              && t.player.view.packets == s.player.view.packets
                 + [|s.player.view.stream.source| + |s.port[0].samples|]))
  {
    hide Good, R.Step, R.Advance, Inv;
    PlayerInv(u, s);
    PortGood(u, s);
    HeadMoves(u, s);
    AdvanceView(s.player, s.port[0]);
    StepKeeps(s.player.view, s.port[0]);
  }

  lemma PortGood(u: Setup, s: System)
    requires Good(u, s) && s.fault == NoFault && s.port != []
    requires s.port[0].AudioEvent? ==> |s.player.view.live| != M.DESCRIPTORS
    ensures Inv(s.player.view) && Good(u, PlayerReceive(s)) && PlayerReceive(s).fault == NoFault
  {
    hide Good, PlayerReceive, Inv;
    PlayerInv(u, s);
    PlayerReceiveGood(u, s);
  }

  lemma StepKeeps(v: M.View, e: R.Event)
    requires Inv(v)
    ensures var w := R.Step(v, e);
      && (w.stream.epoch == v.stream.epoch && !e.RenderEvent? ==> w.stream.played == v.stream.played)
      && (w.packets == v.packets || w.packets == []
          || (e.AudioEvent? && w.packets == v.packets + [|v.stream.source| + |e.samples|]))
  {
    R.StepMoves(v, e);
    D.PacketsMove(v, e);
    hide R.Step, Inv;
  }

  // The packet that waits reaches the player, or the table is full.
  lemma Arrives(u: Setup, s: System, p: nat)
    requires Waiting(u, s, p) && 0 <= Place(u, p) <= |s.player.view.stream.source|
    ensures Sound(u, s)
    ensures var t := Try(u, s, PlayerReceiveMove);
      t.fault == DescriptorLimit
      || (&& Good(u, t) && t.fault == NoFault && t.down == [] && t.port == [] && t.client.Some?
          && t.sender == s.sender && t.player.view.stream.played == p && !t.player.view.paused
          && A.Acked(t.player.view).source == Place(u, p)
          && t.player.view.packets == s.player.view.packets + [s.sender.flow.reserved])
  {
    hide Good, Inv, A.Acked, A.AckOk, Try, PlayerReceive, Place;
    WaitingSource(u, s, p);
    Taken(u, s, PlayerReceiveMove);
    NextGood(u, s, PlayerReceiveMove);
    if |s.player.view.live| != M.DESCRIPTORS {
      PlayerKeeps(u, s);
      HeadMoves(u, s);
      var t := PlayerReceive(s);
      PlayerTakes(s);
      TakenIn(u, s, t, p);
      ReportedIn(u, s, t, p);
    }
  }

  lemma PlayerTakes(s: System)
    requires s.port != [] && Inv(s.player.view)
    ensures PlayerReceive(s).player == R.Advance(s.player, s.port[0])
  {
    hide R.Advance;
  }

  // Everything reserved is in the player now.
  lemma TakenIn(u: Setup, s: System, t: System, p: nat)
    requires Waiting(u, s, p) && Good(u, t) && t == s.(port := s.port[1..], player := t.player)
    requires t.player.view.packets == s.player.view.packets || t.player.view.packets == []
      || t.player.view.packets == s.player.view.packets + [|s.player.view.stream.source| + |s.port[0].samples|]
    ensures |t.player.view.stream.source| == s.sender.flow.reserved
    ensures t.player.view.packets == s.player.view.packets + [s.sender.flow.reserved]
  {
    WaitingSource(u, s, p);
    assert t.sender.produced == t.player.view.stream.source + PortSamples([]) + DownSamples([]);
    assert |t.sender.produced| == t.sender.flow.reserved;
    assert DescriptorsOk(t.player.view) && DescriptorsOk(s.player.view);
    hide Good, Waiting;
  }

  lemma ReportedIn(u: Setup, s: System, t: System, p: nat)
    requires Waiting(u, s, p) && Good(u, t) && t == s.(port := s.port[1..], player := t.player)
    requires Inv(s.player.view) && t.player == R.Advance(s.player, s.port[0])
    requires t.player.view.stream.epoch == s.player.view.stream.epoch
    requires |t.player.view.stream.source| == s.sender.flow.reserved
             && 0 <= Place(u, p) <= |s.player.view.stream.source|
    ensures A.Acked(t.player.view).source == Place(u, p) && t.player.view.stream.played == p && !t.player.view.paused
  {
    hide A.Acked, A.AckOk, R.Advance, R.Step, Good;
    WaitingSource(u, s, p);
    AdvanceView(s.player, s.port[0]);
    var v, w, e := s.player.view, t.player.view, s.port[0];
    EventArrives(v, e);
    PlayerInv(u, t);
    InPlace(u, t);
  }

  lemma EventArrives(v: M.View, e: R.Event)
    requires Inv(v) && e.AudioEvent?
    ensures R.Step(v, e) == M.Enqueue(v, e.id, e.samples, e.rate, e.meta)
    ensures var w := R.Step(v, e);
            w.stream.epoch == v.stream.epoch && |w.stream.source| > |v.stream.source| ==>
              && A.Acked(w) == A.Ack(v.stream.played, M.SourceProgress(w))
              && w.paused == v.paused && w.stream.played == v.stream.played
  {
    hide A.Acked, M.Enqueue, M.SourceProgress;
    ArrivalReports(v, e.id, e.samples, e.rate, e.meta);
  }

  // The reported position of a player in step with its session.
  lemma InPlace(u: Setup, t: System)
    requires Good(u, t) && t.player.view.stream.source != []
    ensures var v := t.player.view; M.SourceProgress(v) == Min(|v.stream.source|, Place(u, v.stream.played))
  {
    hide A.AckOk, A.LastAck, DescriptorsOk, ReportsOk, ProgressOk, SenderOk, DataOk, SessionOk, M.SourceFrames;
    ProgressIsFloor(t.player.view);
  }

  // --- a cycle ----------------------------------------------------------------

  // Frames are rendered, the packet that waits arrives and all reports travel
  // back: the sender knows the new position, or the table is full.
  lemma Cycle(u: Setup, s: System, p: nat, k: nat) returns (moves: seq<Move>)
    requires Loaded(u, s, p) && 0 <= Place(u, p + k) <= |s.player.view.stream.source|
    requires M.Queued(s.player.view) >= 0 && M.RenderCount(s.player.view, k) == k
    ensures Sound(u, s) && forall i | 0 <= i < |moves| :: Neutral(moves[i])
    ensures var t := Execute(u, s, moves);
      t.fault == DescriptorLimit
      || (&& Able(u, t, p + k) && Quiet(t) && Same(s.sender, t.sender)
          && t.player.view.packets == s.player.view.packets + [s.sender.flow.reserved])
  {
    hide Good, Inv, Try, Execute, Place, A.Acked, A.AckOk, M.Process, M.RenderCount, M.Queued, Quiet, SettleMoves;
    WaitingSource(u, s, p);
    Rendered(u, s, p, k);
    var w := Try(u, s, PlayMove(k));
    Arrives(u, w, p + k);
    var x := Try(u, w, PlayerReceiveMove);
    ExecuteTwo(u, s, PlayMove(k), PlayerReceiveMove);
    if x.fault == DescriptorLimit {
      moves := [PlayMove(k), PlayerReceiveMove];
    } else {
      Informs(u, x, p + k);
      moves := [PlayMove(k), PlayerReceiveMove] + SettleMoves(u, x);
      ExecuteConcat(u, s, [PlayMove(k), PlayerReceiveMove], SettleMoves(u, x));
    }
  }

  // Nothing was written meanwhile.
  predicate Same(d: Sender, e: Sender) {
    e.flow.reserved == d.flow.reserved && e.open == d.open && e.chunk == d.chunk
  }

  lemma Rendered(u: Setup, s: System, p: nat, k: nat)
    requires Waiting(u, s, p) && M.Queued(s.player.view) >= 0 && M.RenderCount(s.player.view, k) == k
    ensures Sound(u, s)
    ensures var w := Try(u, s, PlayMove(k));
            && Waiting(u, w, p + k) && w.sender == s.sender && w.player.view.packets == s.player.view.packets
            && w.player.view.stream.source == s.player.view.stream.source
  {
    hide Good, Inv, Try, M.Process, M.RenderCount, M.Queued;
    GoodIsSound(u, s);
    Plays(s.player.view, k);
    OnePlay(u, s, k);
    Taken(u, s, PlayMove(k));
    NextGood(u, s, PlayMove(k));
  }

  // A sender out of credit with nothing on its way learns of a due report.
  lemma DueReports(v: M.View, k: nat)
    requires Inv(v) && !v.stream.done && v.generation != "" && 0 < k == M.RenderCount(v, k)
    requires M.ReportDue(v.config, v.stream.played + k - v.lastReported)
    ensures A.Acked(M.Process(v, k)) == A.Ack(v.stream.played + k, M.SourceProgress(M.Process(v, k)))
  {
    var r := M.Render(v, k);
    assert r.lastReported == v.lastReported && r.stream == v.stream.(played := v.stream.played + k);
    assert r.generation == v.generation && r.config == v.config;
    A.PostAck(r, M.Progress);
    R.PostKeeps(r, M.Progress);
    hide Inv, A.Acked, M.Post, M.SourceFrames, M.Render;
  }

  lemma Kick(u: Setup, s: System) returns (moves: seq<Move>)
    requires Able(u, s, 0) && Quiet(s) && F.Available(s.sender.flow) <= 0
    ensures Sound(u, s) && forall i | 0 <= i < |moves| :: Neutral(moves[i])
    ensures var t := Execute(u, s, moves);
      && Able(u, t, K.ReportInterval(u.player.outputRate)) && Same(s.sender, t.sender)
      && t.player.view.packets == s.player.view.packets
  {
    hide Good, Inv, Try, Execute, Place, A.Acked, A.AckOk, M.Process, M.RenderCount, M.Queued, Quiet, SettleMoves,
         K.ReportInterval, K.Blocked;
    GoodIsSound(u, s);
    var k := K.ReportInterval(u.player.outputRate);
    StarvedIsBlocked(u, s);
    KickPlays(u, s, k);
    var w := Try(u, s, PlayMove(k));
    ExecuteOne(u, s, PlayMove(k));
    Informs(u, w, k);
    moves := [PlayMove(k)] + SettleMoves(u, w);
    ExecuteConcat(u, s, [PlayMove(k)], SettleMoves(u, w));
  }

  lemma KickPlays(u: Setup, s: System, k: nat)
    requires Able(u, s, 0) && K.Blocked(s.player.view) && k == K.ReportInterval(u.player.outputRate)
    ensures Sound(u, s)
    ensures var w := Try(u, s, PlayMove(k));
      && Good(u, w) && w.fault == NoFault && w.down == [] && w.port == [] && w.client.Some? && w.sender == s.sender
      && w.player.view.stream.played == k && !w.player.view.paused && w.player.view.packets == s.player.view.packets
      && A.Acked(w.player.view).source == Place(u, k)
  {
    hide Good, Inv, Try, A.Acked, M.Process, M.RenderCount, M.Queued, Place;
    GoodIsSound(u, s);
    var v := s.player.view;
    PlayerSetup(u, s);
    BlockedPlays(v, k);
    Plays(v, k);
    DueReports(v, k);
    OnePlay(u, s, k);
    Taken(u, s, PlayMove(k));
    NextGood(u, s, PlayMove(k));
    KickPlace(u, s, Try(u, s, PlayMove(k)), k);
  }

  lemma BlockedPlays(v: M.View, k: nat)
    requires K.Blocked(v) && v.stream.played == 0 && k == K.ReportInterval(v.config.outputRate)
    ensures Inv(v) && M.Queued(v) >= 0 && 0 < k == M.RenderCount(v, k)
    ensures M.ReportDue(v.config, v.stream.played + k - v.lastReported)
  {
    K.AheadQueue(v, 2);
    K.DueAfter(v.config, k);
    LtCeil(v.config.outputRate / 20 + 1, v.config.outputRate, 20);
    assert v.lastReported == 0 && !v.completed;
    hide M.Threshold, A.AckOk, A.Acked;
  }

  lemma PlayerSetup(u: Setup, s: System)
    requires Good(u, s)
    ensures s.player.view.config == u.player && s.player.view.stream.rate in [0, u.rate]
  {
    hide R.RunOk, A.AckOk, SenderOk, DataOk, SessionOk;
  }

  // So many frames are well within a second.
  lemma FloorWithin(k: nat, r: nat, o: nat)
    requires k <= o && o > 0
    ensures 0 <= k * r / o <= r
  {
    MulMono(k, o, r);
    assert (r + 1) * o == o * r + o;
    LeFloor(r + 1, k * r, o);
    LeFloor(0, k * r, o);
  }

  lemma PlaceWithin(u: Setup, k: nat)
    requires SetupOk(u) && k <= u.player.outputRate
    ensures 0 <= Place(u, k) <= u.rate
  {
    hide K.Room;
    FloorWithin(k, u.rate, u.player.outputRate);
  }

  lemma KickPlace(u: Setup, s: System, w: System, k: nat)
    requires Good(u, w) && w.player.view.stream.source == s.player.view.stream.source
    requires K.Blocked(s.player.view) && s.player.view.stream.rate in [0, u.rate] && SetupOk(u)
    requires w.player.view.stream.played == k == K.ReportInterval(u.player.outputRate)
    ensures M.SourceProgress(w.player.view) == Place(u, k)
  {
    LtCeil(u.player.outputRate / 20 + 1, u.player.outputRate, 20);
    PlaceWithin(u, k);
    assert |s.player.view.stream.source| >= 2 * u.rate > 0;
    hide Good, K.Blocked, Place, M.SourceProgress;
    InPlace(u, w);
  }
}

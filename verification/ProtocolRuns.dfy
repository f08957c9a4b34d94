// Whole runs of the credit-v1 protocol: no party ever refuses another, what is
// heard is what was produced, nothing unheard is acknowledged, no
// acknowledgement is lost, and a sender out of credit is always answered.
module ProtocolRuns {
  import opened Arithmetic
  import opened Options
  import opened Resampling
  import C = Client
  import F = Flow
  import M = PlayerModel
  import opened PlayerInvariant
  import R = PlayerRuns
  import A = PlayerAck
  import K = PlayerCredit
  import opened Protocol
  import opened ProtocolInvariant
  import opened ProtocolSteps
  import opened ProtocolPlayer

  // The invariant holds until, possibly, the packet descriptors run out.
  ghost predicate Sound(u: Setup, s: System) {
    SetupOk(u) && (s.fault == DescriptorLimit || (s.fault == NoFault && Good(u, s)))
  }

  lemma DeliverKeepsGood(u: Setup, s: System)
    requires Good(u, s) && CanDeliver(s)
    ensures Deliver(s).fault == s.fault && Good(u, Deliver(s))
  {
    assert PlayerOk(u, s.player, s.delivered) && SetupOk(u);
    hide PlayerOk, SenderOk, DataOk, SessionOk;
    DeliverGood(u, s);
  }

  // Every move of every party keeps the invariant; the one fault there is comes
  // from a packet reaching a player whose descriptors are all in use.
  lemma NextGood(u: Setup, s: System, m: Move)
    requires Good(u, s) && Enabled(u, s, m)
    ensures var t := Next(u, s, m);
            if m.PlayerReceiveMove? && s.port[0].AudioEvent? && |s.player.view.live| == M.DESCRIPTORS
            then t.fault == DescriptorLimit
            else t.fault == NoFault && Good(u, t)
  {
    assert Inv(s.player.view) && u.player.outputRate > 0;
    hide Good, Inv;
    match m
    case BeginMove => BeginGood(u, s);
    case SendMove(samples) => SendGood(u, s, samples);
    case RecordMove => RecordGood(u, s);
    case FinishMove => FinishGood(u, s);
    case SenderReceiveMove => SenderReceiveGood(u, s);
    case SessionReceiveMove => SessionReceiveGood(u, s);
    case DeliverMove => DeliverKeepsGood(u, s);
    case PlayerReceiveMove => PlayerReceiveGood(u, s);
    case PlayMove(frames) => PlayGood(u, s, frames);
    case ControlMove(e) => ControlGood(u, s, e);
  }

  // A run tries its moves one after another; a move that is not enabled does nothing.
  ghost function Try(u: Setup, s: System, m: Move): (t: System)
    requires Sound(u, s)
    ensures Sound(u, t)
  {
    if Enabled(u, s, m) then NextGood(u, s, m); Next(u, s, m) else s
  }

  ghost function Execute(u: Setup, s: System, moves: seq<Move>): (t: System)
    requires Sound(u, s)
    ensures Sound(u, t)
    decreases |moves|
  {
    if moves == [] then s else Execute(u, Try(u, s, moves[0]), moves[1..])
  }

  ghost function Reach(u: Setup, moves: seq<Move>): (t: System)
    requires SetupOk(u)
    ensures Sound(u, t)
  {
    InitGood(u);
    Execute(u, Init(u), moves)
  }

  // --- safety ----------------------------------------------------------------

  // In every reachable state the server has refused no snapshot, the session has
  // raised no window, position or order error, and all counts line up.
  lemma CountsAgree(u: Setup, moves: seq<Move>)
    requires SetupOk(u)
    ensures var s := Reach(u, moves);
            && (s.fault == NoFault || s.fault == DescriptorLimit)
            && (s.fault == NoFault ==>
                  && s.sender.flow.reserved == |s.sender.produced| == ReceivedOf(s.client) + |DownSamples(s.down)|
                  && s.sender.flow.played <= PlayedOf(s.client) <= ReceivedOf(s.client) <= s.sender.flow.reserved
                  && s.sender.flow.reserved - s.sender.flow.played <= 2 * u.rate)
  {
    hide Reach, Good;
    if Reach(u, moves).fault == NoFault { CountsGood(u, Reach(u, moves)); }
  }

  function ReceivedOf(a: Option<C.Audio>): int { if a.Some? then a.value.received else 0 }

  function PlayedOf(a: Option<C.Audio>): int { if a.Some? then a.value.played else 0 }

  lemma CountsGood(u: Setup, s: System)
    requires Good(u, s)
    ensures s.sender.flow.reserved == |s.sender.produced| == ReceivedOf(s.client) + |DownSamples(s.down)|
    ensures s.sender.flow.played <= PlayedOf(s.client) <= ReceivedOf(s.client) <= s.sender.flow.reserved
    ensures s.sender.flow.reserved - s.sender.flow.played <= 2 * u.rate
  {
    Ordered(u, s);
    PortCounts(u, PlayerCursor(s.player.view), s.port);
  }

  lemma {:induction false} PortCounts(u: Setup, c: Cursor, port: seq<R.Event>)
    requires AfterPort(u, c, port).Some?
    ensures AfterPort(u, c, port).value.received == c.received + |PortSamples(port)|
    decreases |port|
  {
    if port != [] { PortCounts(u, ReadPort(u, c, port[0]).value, port[1..]); }
  }

  // No acknowledgement is lost to the race between the write and its record, and
  // nothing is acknowledged that the listener has not been played.
  lemma NothingUnheard(u: Setup, moves: seq<Move>)
    requires SetupOk(u) && Reach(u, moves).fault == NoFault
    ensures var s := Reach(u, moves); var d := s.sender;
            && d.timelinePlayed == Min(d.flow.played, d.timelineSent)
            && d.flow.played * u.player.outputRate <= |s.player.heard| * u.rate
            && d.timelinePlayed * u.player.outputRate <= |s.player.heard| * u.rate
  {
    hide Reach, Good;
    UnheardGood(u, Reach(u, moves));
  }

  lemma UnheardGood(u: Setup, s: System)
    requires Good(u, s)
    ensures s.sender.timelinePlayed == Min(s.sender.flow.played, s.sender.timelineSent)
    ensures s.sender.flow.played * u.player.outputRate <= |s.player.heard| * u.rate
    ensures s.sender.timelinePlayed * u.player.outputRate <= |s.player.heard| * u.rate
  {
    Ordered(u, s);
    var v := s.player.view;
    AckedIsReported(v, s.delivered);
    ProgressIsFloor(v);
    var o, p := u.player.outputRate, s.sender.flow.played;
    assert |s.player.heard| == v.stream.played;
    if s.client.Some? { MulMono(p, M.SourceProgress(v), o); } else { assert p == 0; }
    MulMono(s.sender.timelinePlayed, p, o);
    if v.stream.rate == 0 { assert M.SourceProgress(v) == 0; MulMono(0, v.stream.played, u.rate); }
  }

  // A finished stream cannot be extended.
  lemma DownAfterDone(c: Cursor, down: seq<Down>)
    requires c.done && AfterDown(c, down).Some?
    ensures down == []
  {}

  lemma {:induction false} PortAfterDone(u: Setup, c: Cursor, port: seq<R.Event>)
    requires c.done && AfterPort(u, c, port).Some?
    ensures AfterPort(u, c, port).value == c && PortSamples(port) == []
    decreases |port|
  {
    if port != [] { PortAfterDone(u, c, port[1..]); }
  }

  lemma FinishedSource(u: Setup, s: System)
    requires Good(u, s) && s.player.view.stream.done
    ensures s.player.view.stream.source == s.sender.produced && s.sender.finished
  {
    PortAfterDone(u, PlayerCursor(s.player.view), s.port);
    DownAfterDone(SessionCursor(u, s).value, s.down);
    assert s.sender.produced == s.player.view.stream.source + [] + [];
  }

  lemma HeardOf(r: R.Run, rest: seq<real>, rate: nat)
    requires R.RunOk(r) && rate > 0 && (r.view.stream.rate == 0 || r.view.stream.rate == rate)
    requires r.view.stream.done ==> rest == []
    ensures var all := Batch(r.view.stream.source + rest, rate, r.view.config.outputRate);
            r.heard <= all && (r.view.completed ==> r.heard == all)
  {
    var v, o := r.view, r.view.config.outputRate;
    var source := v.stream.source;
    assert FramesOk(v);
    hide Inv, Emitted, Target;
    if v.stream.rate == 0 {
      assert v.stream.played == 0;
      if v.stream.done { assert source + rest == []; NoTarget(rate, o); }
    } else if v.stream.done {
      assert source + rest == source;
      R.PrefixAppends(v.stream, o, 0, v.stream.played, Target(|source|, rate, o));
      assert r.heard == Batch(source, rate, o)[..v.stream.played];
    } else {
      HeardPrefix(source, rest, rate, o, v.stream.played);
    }
  }

  lemma NoTarget(s: nat, o: nat)
    requires s > 0
    ensures Target(0, s, o) == 0
  {}

  // End to end: what the listener has heard is the start of the batch
  // interpolation of everything the sender produced, and at completion all of it.
  lemma HeardIsProduced(u: Setup, moves: seq<Move>)
    requires SetupOk(u) && Reach(u, moves).fault == NoFault
    ensures var s := Reach(u, moves);
            && s.player.heard <= Batch(s.sender.produced, u.rate, u.player.outputRate)
            && (s.player.view.completed ==>
                  s.sender.finished && s.player.heard == Batch(s.sender.produced, u.rate, u.player.outputRate))
  {
    hide Reach, Good, Batch;
    HeardGood(u, Reach(u, moves));
  }

  lemma HeardGood(u: Setup, s: System)
    requires Good(u, s)
    ensures s.player.heard <= Batch(s.sender.produced, u.rate, u.player.outputRate)
    ensures s.player.view.completed ==>
              s.sender.finished && s.player.heard == Batch(s.sender.produced, u.rate, u.player.outputRate)
  {
    assert u.rate > 0 && R.RunOk(s.player) && (s.player.view.completed ==> s.player.view.stream.done);
    assert s.player.view.config == u.player && (s.player.view.stream.rate == 0 || s.player.view.stream.rate == u.rate);
    if s.player.view.stream.done { FinishedSource(u, s); }
    var source, port, down := s.player.view.stream.source, PortSamples(s.port), DownSamples(s.down);
    assert s.sender.produced == source + port + down;
    hide *;
    assert source + port + down == source + (port + down);
    if s.player.view.stream.done { assert |port + down| == 0; }
    HeardOf(s.player, port + down, u.rate);
  }

  lemma HeardPrefix(source: seq<real>, rest: seq<real>, s: nat, o: nat, played: nat)
    requires s > 0 && o > 0 && played <= Emitted(|source|, s, o)
    ensures Output(source, s, o, played) <= Batch(source + rest, s, o)
  {
    OutputStable(source, rest, s, o, played);
    EmittedWithinTarget(|source|, s, o);
    EmittedMono(|source|, |source + rest|, s, o);
    var all := Target(|source + rest|, s, o);
    assert Output(source + rest, s, o, played) == Output(source + rest, s, o, all)[..played];
  }

  // --- liveness --------------------------------------------------------------

  // Nothing is in flight: both data queues and both acknowledgement queues are empty.
  ghost predicate Quiet(s: System) {
    s.down == [] && s.port == [] && s.up == [] && s.delivered == |s.player.view.posted|
  }

  // Once everything is delivered the sender knows the last acknowledged position.
  lemma QuietAgrees(u: Setup, s: System)
    requires Good(u, s) && Quiet(s) && s.client.Some?
    ensures var v := s.player.view; var f := s.sender.flow;
            && f.capacity == 2 * u.rate && f.played == A.Acked(v).source
            && f.reserved == |v.stream.source| && v.stream.rate == u.rate && v.stream.done == s.sender.finished
  {
    assert s.player.view.posted[..s.delivered] == s.player.view.posted;
  }

  // A sender without credit and with nothing in flight faces a player that will render.
  lemma StarvedIsBlocked(u: Setup, s: System)
    requires Good(u, s) && Quiet(s) && s.client.Some?
    requires F.Available(s.sender.flow) <= 0 && !s.sender.finished && !s.player.view.paused
    ensures K.Blocked(s.player.view)
  {
    QuietAgrees(u, s);
  }

  ghost function Plays(sizes: seq<nat>): seq<Move> {
    seq(|sizes|, i requires 0 <= i < |sizes| => PlayMove(sizes[i]))
  }

  lemma OnePlay(u: Setup, s: System, frames: nat)
    requires Sound(u, s) && s.fault == NoFault
    ensures Inv(s.player.view)
    ensures var t := Try(u, s, PlayMove(frames));
            t == s.(player := t.player) && t.player.view == M.Process(s.player.view, frames)
  {
    hide Good, Inv, M.Process;
    PlayerInv(u, s);
    AdvanceView(s.player, R.RenderEvent(frames));
  }

  lemma {:induction false} PlaysQuanta(u: Setup, s: System, sizes: seq<nat>)
    requires Sound(u, s) && s.fault == NoFault
    ensures Inv(s.player.view)
    ensures var t := Execute(u, s, Plays(sizes));
            t == s.(player := t.player) && t.player.view == K.Quanta(s.player.view, sizes)
    decreases |sizes|
  {
    assert Inv(s.player.view);
    hide Good, Inv, Try, Sound, M.Process;
    if sizes != [] {
      assert Plays(sizes)[0] == PlayMove(sizes[0]);
      assert Plays(sizes)[1..] == Plays(sizes[1..]);
      OnePlay(u, s, sizes[0]);
      PlaysQuanta(u, Try(u, s, PlayMove(sizes[0])), sizes[1..]);
    }
  }

  ghost function Repeat(m: Move, n: nat): seq<Move> { seq(n, i requires 0 <= i < n => m) }

  lemma RepeatUnfold(m: Move, n: nat)
    requires n > 0
    ensures Repeat(m, n)[0] == m && Repeat(m, n)[1..] == Repeat(m, n - 1)
  {}

  lemma OneDelivery(u: Setup, s: System)
    requires Sound(u, s) && s.fault == NoFault && CanDeliver(s)
    ensures var t := Try(u, s, DeliverMove);
            && t.fault == NoFault && t.delivered == s.delivered + 1 && t.player == s.player
            && t.sender == s.sender && t.down == s.down && t.port == s.port && (s.client.Some? ==> t.client.Some?)
  {
    hide Good;
    DeliverKeepsGood(u, s);
  }

  lemma {:induction false} DeliverAll(u: Setup, s: System, n: nat)
    requires Sound(u, s) && s.fault == NoFault && s.delivered + n == |s.player.view.posted|
    ensures var t := Execute(u, s, Repeat(DeliverMove, n));
            && t.fault == NoFault && t.delivered == |s.player.view.posted| && t.player == s.player
            && t.sender == s.sender && t.down == s.down && t.port == s.port && (s.client.Some? ==> t.client.Some?)
    decreases n
  {
    hide Sound, Try;
    if n > 0 {
      OneDelivery(u, s);
      RepeatUnfold(DeliverMove, n);
      DeliverAll(u, Try(u, s, DeliverMove), n - 1);
    }
  }

  // What a sender learns from reports moves its window and its played position.
  predicate Informed(d: Sender, e: Sender) {
    e == d.(flow := e.flow, timelinePlayed := e.timelinePlayed) && e.flow.reserved == d.flow.reserved
  }

  lemma OneReceipt(u: Setup, s: System)
    requires Sound(u, s) && s.fault == NoFault && s.up != []
    ensures var t := Try(u, s, SenderReceiveMove);
            && t == s.(sender := t.sender, up := s.up[1..]) && Informed(s.sender, t.sender)
  {
    hide Good;
    SenderReceiveGood(u, s);
  }

  lemma {:induction false} ReceiveAll(u: Setup, s: System, n: nat)
    requires Sound(u, s) && s.fault == NoFault && n == |s.up|
    ensures var t := Execute(u, s, Repeat(SenderReceiveMove, n));
            && t == s.(sender := t.sender, up := []) && Informed(s.sender, t.sender)
    decreases n
  {
    hide Sound, Try;
    if n > 0 {
      OneReceipt(u, s);
      RepeatUnfold(SenderReceiveMove, n);
      ReceiveAll(u, Try(u, s, SenderReceiveMove), n - 1);
    }
  }

  // Every posted report delivered, then every message handed to the sender.
  ghost function Settled(u: Setup, s: System): (t: System)
    requires Sound(u, s) && s.delivered <= |s.player.view.posted|
    ensures Sound(u, t)
  {
    var t := Execute(u, s, Repeat(DeliverMove, |s.player.view.posted| - s.delivered));
    Execute(u, t, Repeat(SenderReceiveMove, |t.up|))
  }

  lemma SettledQuiet(u: Setup, s: System)
    requires Sound(u, s) && s.fault == NoFault && s.down == [] && s.port == [] && s.delivered <= |s.player.view.posted|
    ensures var t := Settled(u, s);
            && t.fault == NoFault && Quiet(t) && t.player == s.player && (s.client.Some? ==> t.client.Some?)
            && Informed(s.sender, t.sender)
  {
    hide Sound, Execute;
    DeliverAll(u, s, |s.player.view.posted| - s.delivered);
    var t := Execute(u, s, Repeat(DeliverMove, |s.player.view.posted| - s.delivered));
    ReceiveAll(u, t, |t.up|);
  }

  // No deadlock. When the sender is out of credit, nothing is in flight and
  // playback is not paused, render quanta of any sizes reopen the window: within
  // one report interval of them, once the reports travel back, there is credit.
  lemma NoDeadlock(u: Setup, s: System, sizes: seq<nat>)
    requires Good(u, s) && s.fault == NoFault && Quiet(s) && s.client.Some?
    requires F.Available(s.sender.flow) <= 0 && !s.sender.finished && !s.player.view.paused
    requires |sizes| >= K.ReportInterval(u.player.outputRate) && forall i | 0 <= i < |sizes| :: sizes[i] > 0
    ensures M.Renders(s.player.view) && M.RenderCount(s.player.view, sizes[0]) >= 1
    ensures exists k | 0 <= k <= |sizes| :: Reopened(u, s, sizes[..k])
  {
    var v := s.player.view;
    StarvedIsBlocked(u, s);
    K.BlockedRenders(v, sizes[0]);
    K.AckArrives(v, sizes);
    var k :| 0 <= k <= |sizes| && A.Acked(K.Quanta(v, sizes[..k])).source > A.Acked(v).source;
    ReopenedBy(u, s, sizes[..k]);
  }

  // After these render quanta and the reports they caused, the sender has credit.
  ghost predicate Reopened(u: Setup, s: System, sizes: seq<nat>)
    requires Sound(u, s)
  {
    var t := Execute(u, s, Plays(sizes));
    t.delivered <= |t.player.view.posted| && F.Available(Settled(u, t).sender.flow) > 0
  }

  lemma ReopenedBy(u: Setup, s: System, sizes: seq<nat>)
    requires Good(u, s) && s.fault == NoFault && Quiet(s) && s.client.Some?
    requires Inv(s.player.view) && A.Acked(K.Quanta(s.player.view, sizes)).source > A.Acked(s.player.view).source
    ensures Reopened(u, s, sizes)
  {
    QuietAgrees(u, s);
    PlaysQuanta(u, s, sizes);
    var t := Execute(u, s, Plays(sizes));
    assert t.delivered <= |t.player.view.posted|;
    SettledQuiet(u, t);
    var w := Settled(u, t);
    QuietAgrees(u, w);
    assert s.sender.flow.reserved <= s.sender.flow.played + 2 * u.rate;
  }
}

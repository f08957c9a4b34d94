// The server's own send loop: it cuts the chunk at hand into packets as large as
// the wire limit and the window allow. It never chooses to send little, and yet it
// can be made to: a window that opens by single frames is used up by single frames.
module ProtocolServer {
  import opened Arithmetic
  import F = Flow
  import M = PlayerModel
  import opened PlayerInvariant
  import K = PlayerCredit
  import opened Protocol
  import opened ProtocolInvariant
  import opened ProtocolSteps
  import opened ProtocolRuns
  import D = ProtocolDescriptors
  import opened ProtocolCycles
  import opened ProtocolFlood

  // 16 KiB of 16-bit mono frames, the one format the loop sends.
  const PACKET: int := 8192

  // left: frames of the registered chunk that have not been written.
  datatype Server = Server(system: System, left: int, chunks: nat)

  // Registering a chunk of so many frames, or any move of any party.
  datatype Step = Register(frames: nat) | Do(move: Move)

  function MoveOf(e: Step): Move {
    match e
    case Register(_) => BeginMove
    case Do(m) => m
  }

  // What one pass of the loop writes: a full packet, unless the chunk or the window ends before.
  function Grant(v: Server): int { Min(PACKET, Min(v.left, F.Available(v.system.sender.flow))) }

  // limit: the store accepts so many chunks in one answer.
  ghost predicate Allowed(u: Setup, limit: nat, v: Server, e: Step)
    requires u.player.outputRate > 0
  {
    && Enabled(u, v.system, MoveOf(e))
    && match e
       case Register(frames) => v.left == 0 && frames > 0 && v.chunks < limit
       case Do(m) =>
         match m
         case BeginMove => false
         case SendMove(samples) => |samples| == Grant(v)
         case FinishMove => v.left == 0
         case _ => true
  }

  function Booked(v: Server, e: Step): Server {
    match e
    case Register(frames) => v.(left := frames, chunks := v.chunks + 1)
    case Do(m) => if m.SendMove? then v.(left := v.left - |m.samples|) else v
  }

  ghost function Serve(u: Setup, limit: nat, v: Server, e: Step): (w: Server)
    requires Sound(u, v.system)
    ensures Sound(u, w.system)
  {
    if Allowed(u, limit, v, e) then Booked(v, e).(system := Try(u, v.system, MoveOf(e))) else v
  }

  ghost function ServeAll(u: Setup, limit: nat, v: Server, steps: seq<Step>): (w: Server)
    requires Sound(u, v.system)
    ensures Sound(u, w.system)
    decreases |steps|
  {
    if steps == [] then v else ServeAll(u, limit, Serve(u, limit, v, steps[0]), steps[1..])
  }

  ghost function Start(u: Setup): (v: Server)
    requires SetupOk(u)
    ensures Sound(u, v.system)
  {
    Server(Reach(u, []), 0, 0)
  }

  // --- a served run is a run --------------------------------------------------

  // All that the loop does the protocol of the other lemmas allows, so what holds
  // of every run holds of every served one.
  lemma {:induction false} ServedIsRun(u: Setup, limit: nat, v: Server, steps: seq<Step>) returns (moves: seq<Move>)
    requires Sound(u, v.system)
    ensures Sends(moves, 1) && |moves| <= |steps|
    ensures Execute(u, v.system, moves) == ServeAll(u, limit, v, steps).system
    decreases |steps|
  {
    hide Sound, Try, Booked, Grant, CanSend;
    if steps == [] {
      moves := [];
    } else {
      SoundRate(u, v.system);
      var rest := ServedIsRun(u, limit, Serve(u, limit, v, steps[0]), steps[1..]);
      if Allowed(u, limit, v, steps[0]) {
        SendsSome(u, v.system, MoveOf(steps[0]));
        moves := [MoveOf(steps[0])] + rest;
        assert moves[1..] == rest;
      } else {
        moves := rest;
      }
    }
  }

  lemma RateBounds(u: Setup)
    requires SetupOk(u)
    ensures 1000 <= u.rate <= 192000 && u.player.outputRate >= 8000
  {
    hide K.Room;
  }

  lemma SoundRate(u: Setup, s: System)
    requires Sound(u, s)
    ensures u.player.outputRate > 0
  {
    hide Good, K.Room;
  }

  lemma SendsSome(u: Setup, s: System, m: Move)
    requires u.player.outputRate > 0 && Enabled(u, s, m)
    ensures Sends([m], 1)
  {
    hide F.Available, FrameLimit;
  }

  lemma {:induction false} ServeConcat(u: Setup, limit: nat, v: Server, a: seq<Step>, b: seq<Step>)
    requires Sound(u, v.system)
    ensures ServeAll(u, limit, v, a + b) == ServeAll(u, limit, ServeAll(u, limit, v, a), b)
    decreases |a|
  {
    hide Sound, Serve;
    if a == [] {
      assert a + b == b;
    } else {
      assert (a + b)[1..] == a[1..] + b;
      ServeConcat(u, limit, Serve(u, limit, v, a[0]), a[1..], b);
    }
  }

  lemma ServeOne(u: Setup, limit: nat, v: Server, e: Step)
    requires Sound(u, v.system)
    ensures ServeAll(u, limit, v, [e]) == Serve(u, limit, v, e)
  {
    hide Sound, Serve;
    assert ServeAll(u, limit, Serve(u, limit, v, e), []) == Serve(u, limit, v, e);
  }

  function Steps(moves: seq<Move>): seq<Step> { seq(|moves|, i requires 0 <= i < |moves| => Do(moves[i])) }

  // Moves that write nothing are served as they are.
  lemma {:induction false} NeutralServed(u: Setup, limit: nat, v: Server, moves: seq<Move>)
    requires Sound(u, v.system) && forall i | 0 <= i < |moves| :: Neutral(moves[i])
    ensures ServeAll(u, limit, v, Steps(moves)) == v.(system := Execute(u, v.system, moves))
    decreases |moves|
  {
    hide Sound, Next, Enabled;
    if moves != [] {
      assert Neutral(moves[0]);
      assert Steps(moves)[1..] == Steps(moves[1..]) && Steps(moves)[0] == Do(moves[0]);
      assert Serve(u, limit, v, Do(moves[0])) == v.(system := Try(u, v.system, moves[0]));
      NeutralServed(u, limit, v.(system := Try(u, v.system, moves[0])), moves[1..]);
    }
  }

  // A packet of just the size the loop takes is written.
  lemma WriteServed(u: Setup, limit: nat, v: Server, samples: seq<real>)
    requires Sound(u, v.system) && SetupOk(u) && v.system.fault == NoFault
    requires CanSend(u, v.system, samples) && |samples| == Grant(v)
    ensures ServeAll(u, limit, v, Steps(Write(samples)))
            == v.(system := Execute(u, v.system, Write(samples)), left := v.left - |samples|)
  {
    hide Sound, CanSend, SetupOk, Try, Execute, ServeAll, Grant, Neutral;
    var send, rest := [SendMove(samples)], [RecordMove, SessionReceiveMove];
    assert Steps(Write(samples)) == [Do(SendMove(samples))] + Steps(rest) && Write(samples) == send + rest;
    ServeConcat(u, limit, v, [Do(SendMove(samples))], Steps(rest));
    ServeOne(u, limit, v, Do(SendMove(samples)));
    ExecuteConcat(u, v.system, send, rest);
    ExecuteOne(u, v.system, SendMove(samples));
    NeutralPair(RecordMove, SessionReceiveMove);
    NeutralServed(u, limit, Serve(u, limit, v, Do(SendMove(samples))), rest);
  }

  lemma NeutralPair(a: Move, b: Move)
    requires Neutral(a) && Neutral(b)
    ensures forall i | 0 <= i < |[a, b]| :: Neutral([a, b][i])
  {
  }

  // --- one chunk of five seconds ----------------------------------------------

  ghost predicate Long(u: Setup) { SetupOk(u) && 5 * u.rate <= FrameLimit(u) }

  // What has not been written of the five seconds is still to be.
  predicate Conserved(u: Setup, v: Server) { v.left + v.system.sender.flow.reserved == 5 * u.rate }

  // A packet waits in the port and everything is in order.
  ghost predicate Busy(u: Setup, v: Server, p: nat) {
    Loaded(u, v.system, p) && Conserved(u, v) && 0 <= Place(u, p) <= |v.system.player.view.stream.source|
  }

  ghost predicate Failed(v: Server) { v.system.fault == DescriptorLimit }

  // What the window holds is written as far as one packet goes.
  lemma Give(u: Setup, limit: nat, v: Server, p: nat) returns (steps: seq<Step>)
    requires Long(u) && Able(u, v.system, p) && Conserved(u, v) && v.left > 0
    requires v.system.sender.flow.reserved < 2 * u.rate + Place(u, p)
    ensures Sound(u, v.system) && 0 < Grant(v)
    ensures Grant(v) == Min(PACKET, Min(v.left, 2 * u.rate + Place(u, p) - v.system.sender.flow.reserved))
    ensures var w := ServeAll(u, limit, v, steps);
      && Loaded(u, w.system, p) && Conserved(u, w) && w.system.player == v.system.player
      && w.system.sender.flow.reserved == v.system.sender.flow.reserved + Grant(v)
  {
    hide Good, Execute, ServeAll, Place, FrameLimit, SetupOk, CanSend, Ready, Write, Loaded;
    RateBounds(u);
    var samples := Silence(Grant(v));
    CanWrite(u, v.system, p, samples);
    Loads(u, v.system, p, samples);
    WriteServed(u, limit, v, samples);
    steps := Steps(Write(samples));
  }

  // Frames are rendered, the packet that waits arrives and its report travels back.
  lemma Pass(u: Setup, limit: nat, v: Server, p: nat, k: nat) returns (steps: seq<Step>)
    requires Busy(u, v, p) && 0 <= Place(u, p + k) <= |v.system.player.view.stream.source|
    requires M.Queued(v.system.player.view) >= 0 && M.RenderCount(v.system.player.view, k) == k
    ensures Sound(u, v.system)
    ensures var w := ServeAll(u, limit, v, steps);
      Failed(w)
      || (&& Able(u, w.system, p + k) && Quiet(w.system) && w.left == v.left
          && w.system.sender.flow.reserved == v.system.sender.flow.reserved
          && w.system.player.view.packets == v.system.player.view.packets + [v.system.sender.flow.reserved]
          && |w.system.player.view.stream.source| == v.system.sender.flow.reserved)
  {
    hide Good, Execute, ServeAll, Place, Loaded, Able, M.RenderCount, M.Queued, Quiet, Neutral;
    var moves := Cycle(u, v.system, p, k);
    NeutralServed(u, limit, v, moves);
    steps := Steps(moves);
    if !Failed(ServeAll(u, limit, v, steps)) { AbleSource(u, Execute(u, v.system, moves), p + k); }
  }

  lemma PassNothing(u: Setup, limit: nat, v: Server, p: nat) returns (steps: seq<Step>)
    requires Busy(u, v, p)
    ensures Sound(u, v.system)
    ensures var w := ServeAll(u, limit, v, steps);
      Failed(w)
      || (&& Able(u, w.system, p) && Quiet(w.system) && w.left == v.left
          && w.system.sender.flow.reserved == v.system.sender.flow.reserved
          && |w.system.player.view.stream.source| == v.system.sender.flow.reserved)
  {
    hide Good, ServeAll, Place, Able, M.RenderCount, M.Queued, Quiet, Inv, Sound;
    WaitingSource(u, v.system, p);
    PlayNothing(v.system.player.view);
    steps := Pass(u, limit, v, p, 0);
  }

  lemma BusyFacts(u: Setup, v: Server, p: nat)
    requires Busy(u, v, p)
    ensures Sound(u, v.system) && v.system.sender.flow.reserved <= 2 * u.rate + Place(u, p)
    ensures |v.system.player.view.stream.source| <= v.system.sender.flow.reserved
  {
    WaitingSource(u, v.system, p);
    hide PlayerOk, DataOk, SessionOk, Place, SetupOk, Inv;
  }

  // The window is filled up.
  lemma {:induction false} Fill(u: Setup, limit: nat, v: Server, p: nat) returns (steps: seq<Step>)
    requires Long(u) && Busy(u, v, p) && Place(u, p) < 3 * u.rate
    ensures Sound(u, v.system)
    ensures var w := ServeAll(u, limit, v, steps);
      Failed(w)
      || (&& Busy(u, w, p) && w.system.sender.flow.reserved == 2 * u.rate + Place(u, p)
          && |w.system.player.view.stream.source| >= |v.system.player.view.stream.source|)
    decreases 2 * u.rate + Place(u, p) - v.system.sender.flow.reserved
  {
    hide Good, ServeAll, Place, Able, Quiet, Sound, Long, Loaded, Grant;
    BusyFacts(u, v, p);
    if v.system.sender.flow.reserved == 2 * u.rate + Place(u, p) {
      steps := [];
      ServeNone(u, limit, v);
    } else {
      var pass := PassNothing(u, limit, v, p);
      var w := ServeAll(u, limit, v, pass);
      steps := pass;
      if !Failed(w) {
        var give := Give(u, limit, w, p);
        var x := ServeAll(u, limit, w, give);
        var more := Fill(u, limit, x, p);
        ServeConcat(u, limit, v, pass, give);
        ServeConcat(u, limit, v, pass + give, more);
        steps := pass + give + more;
      }
    }
  }

  lemma ServeNone(u: Setup, limit: nat, v: Server)
    requires Sound(u, v.system)
    ensures ServeAll(u, limit, v, []) == v
  {
  }

  // --- opening ----------------------------------------------------------------

  lemma Opens(u: Setup, limit: nat) returns (steps: seq<Step>)
    requires Long(u) && limit > 0
    ensures var w := ServeAll(u, limit, Start(u), steps); Able(u, w.system, 0) && Fresh(w.system) && Conserved(u, w)
  {
    hide Good, Execute, ServeAll, Able, FrameLimit, Try, Init;
    Opened(u);
    var v, rest := Start(u), OPENING[1..];
    Registers(u, limit, 5 * u.rate);
    ServeOne(u, limit, v, Register(5 * u.rate));
    assert OPENING == [BeginMove] + rest;
    ExecuteConcat(u, Init(u), [BeginMove], rest);
    ExecuteOne(u, Init(u), BeginMove);
    assert rest == [SessionReceiveMove, PlayerReceiveMove, SenderReceiveMove];
    NeutralServed(u, limit, Serve(u, limit, v, Register(5 * u.rate)), rest);
    steps := [Register(5 * u.rate)] + Steps(rest);
    ServeConcat(u, limit, v, [Register(5 * u.rate)], Steps(rest));
  }

  lemma Registers(u: Setup, limit: nat, frames: nat)
    requires SetupOk(u) && limit > 0 && frames > 0
    ensures var v := Start(u);
            && v.system == Init(u) && Sound(u, Init(u))
            && Serve(u, limit, v, Register(frames)) == Server(Try(u, Init(u), BeginMove), frames, 1)
  {
    hide Good, Inv, Try;
    InitGood(u);
    InitQuiet(u);
  }

  // The window is filled before anything is rendered; then it opens by one report interval.
  lemma Starts(u: Setup, limit: nat) returns (steps: seq<Step>)
    requires Long(u) && limit > 0
    ensures var w := ServeAll(u, limit, Start(u), steps);
      Failed(w)
      || (Able(u, w.system, 0) && Quiet(w.system) && Conserved(u, w) && w.system.sender.flow.reserved == 2 * u.rate)
  {
    hide Good, ServeAll, Place, Able, Quiet, Sound, Loaded, Grant, FrameLimit, SetupOk, Start;
    PlaceNone(u);
    RateBounds(u);
    var a := Opens(u, limit);
    var v := ServeAll(u, limit, Start(u), a);
    var b := Give(u, limit, v, 0);
    var w := ServeAll(u, limit, v, b);
    var c := Fill(u, limit, w, 0);
    var x := ServeAll(u, limit, w, c);
    ServeConcat(u, limit, Start(u), a, b);
    ServeConcat(u, limit, Start(u), a + b, c);
    steps := a + b + c;
    if !Failed(x) {
      var d := PassNothing(u, limit, x, 0);
      ServeConcat(u, limit, Start(u), steps, d);
      steps := steps + d;
    }
  }

  // ...and then opens by what one report interval of rendering acknowledges.
  lemma Kicks(u: Setup, limit: nat, v: Server) returns (steps: seq<Step>, p: nat)
    requires Long(u) && Able(u, v.system, 0) && Quiet(v.system) && Conserved(u, v)
    requires v.system.sender.flow.reserved == 2 * u.rate
    ensures Sound(u, v.system) && 0 < Place(u, p) <= u.rate
    ensures var w := ServeAll(u, limit, v, steps);
      && Busy(u, w, p) && |w.system.player.view.stream.source| == 2 * u.rate
  {
    hide Good, Execute, ServeAll, Place, Able, Quiet, Loaded, Grant, FrameLimit, SetupOk, K.ReportInterval, Neutral;
    NoCredit(u, v.system);
    var moves := Kick(u, v.system);
    NeutralServed(u, limit, v, moves);
    p := K.ReportInterval(u.player.outputRate);
    KickOpens(u);
    var w := ServeAll(u, limit, v, Steps(moves));
    AbleSource(u, w.system, p);
    var give := Give(u, limit, w, p);
    ServeConcat(u, limit, v, Steps(moves), give);
    steps := Steps(moves) + give;
  }

  lemma NoCredit(u: Setup, s: System)
    requires Able(u, s, 0) && s.sender.flow.reserved == 2 * u.rate
    ensures F.Available(s.sender.flow) <= 0
  {
    hide Good;
    PlaceNone(u);
  }

  // A report interval is at least a twentieth of a second.
  lemma KickOpens(u: Setup)
    requires SetupOk(u)
    ensures 0 < Place(u, K.ReportInterval(u.player.outputRate)) <= u.rate
  {
    RateBounds(u);
    var o, r, k := u.player.outputRate, u.rate, K.ReportInterval(u.player.outputRate);
    LtCeil(o / 20 + 1, o, 20);
    LtCeil(k, o, 20);
    assert 20 * k >= o && k <= o;
    PlaceWithin(u, k);
    hide SetupOk, K.ReportInterval;
    MulMono(20, r, k);
    LeFloor(1, k * r, o);
  }

  // --- the window opens by single frames --------------------------------------

  lemma ShortStep(p: nat, q: nat, place: int, r: nat, o: nat)
    requires r >= 1000 && o >= 8000 && p < q && place * o <= p * r && (q - 1) * r < (place + 1) * o
    ensures 2 * (q - p) <= o
  {
    assert (q - 1 - p) * r == (q - 1) * r - p * r && (place + 1) * o == place * o + o;
    MulMono(1000, r, q - 1 - p);
  }

  lemma NextPlace(q: nat, place: int, r: nat, o: nat)
    requires o > 0 && (place + 1) * o <= q * r < (place + 1) * o + r
    ensures place + 1 <= q * r / o <= place + CeilDiv(r, o)
  {
    var g := CeilDiv(r, o);
    LeFloor(place + 1, q * r, o);
    LtCeil(g, r, o);
    assert (place + g + 1) * o == (place + 1) * o + g * o;
    LeFloor(place + g + 1, q * r, o);
  }

  // The fewest output frames that reach the next source frame.
  lemma Reaches(p: nat, r: nat, o: nat) returns (k: nat)
    requires r >= 1000 && o >= 8000
    ensures 2 * k <= o && p * r / o + 1 <= (p + k) * r / o <= p * r / o + CeilDiv(r, o)
  {
    var place := p * r / o;
    var q := CeilDiv((place + 1) * o, r);
    DivBounds(p * r, o);
    hide CeilDiv;
    LtCeil(p, (place + 1) * o, r);
    LtCeil(q, (place + 1) * o, r);
    LtCeil(q - 1, (place + 1) * o, r);
    assert (q - 1) * r == q * r - r;
    ShortStep(p, q, place, r, o);
    NextPlace(q, place, r, o);
    k := q - p;
  }

  // So many steps of one frame, or of the few that one output frame stands for,
  // are less than the two seconds of the window.
  lemma FewFrames(j: nat, r: nat, o: nat)
    requires o >= 8000 && 1000 <= r <= 192000 && 2 * r > M.DESCRIPTORS && j <= M.DESCRIPTORS + 1
    ensures 0 < CeilDiv(r, o) <= 24 && j * CeilDiv(r, o) <= 2 * r
  {
    var g := CeilDiv(r, o);
    LtCeil(0, r, o);
    LtCeil(g - 1, r, o);
    MulMono(8000, o, g - 1);
    MulMono(j, M.DESCRIPTORS + 1, g);
  }

  // The window is used up, j packets after its first frame of credit; all of them
  // lie beyond two seconds.
  ghost predicate Drip(u: Setup, v: Server, p: nat, b: nat, base: int, j: nat) {
    && Busy(u, v, p) && v.system.sender.flow.reserved == 2 * u.rate + Place(u, p)
    && |v.system.player.view.stream.source| - Place(u, p) >= u.rate
    && Beyond(v.system, b, 2 * u.rate + base) && |v.system.player.view.packets| + 1 == b + j
    && 0 <= base <= u.rate && base <= Place(u, p) <= base + j * CeilDiv(u.rate, u.player.outputRate)
  }

  lemma DripFrames(u: Setup, v: Server, p: nat) returns (k: nat)
    requires SetupOk(u) && Busy(u, v, p) && |v.system.player.view.stream.source| - Place(u, p) >= u.rate
    ensures M.Queued(v.system.player.view) >= 0 && M.RenderCount(v.system.player.view, k) == k
    ensures Place(u, p) + 1 <= Place(u, p + k) <= Place(u, p) + CeilDiv(u.rate, u.player.outputRate)
  {
    RateBounds(u);
    hide Good, Inv, Loaded, M.RenderCount, M.Queued, SetupOk, K.Ahead, CeilDiv;
    k := Reaches(p, u.rate, u.player.outputRate);
    WaitingSource(u, v.system, p);
    WaitingAhead(u, v.system, p);
    CanPlay(v.system.player.view, k);
  }

  // Neither the chunk nor one packet ends a step short.
  lemma DripRoom(u: Setup, v: Server, p: nat, b: nat, base: int, j: nat)
    requires SetupOk(u) && 2 * u.rate > M.DESCRIPTORS && Drip(u, v, p, b, base, j) && j <= M.DESCRIPTORS
    ensures var g := CeilDiv(u.rate, u.player.outputRate);
            g <= 24 && Place(u, p) + g <= 3 * u.rate && Place(u, p) + g <= base + (j + 1) * g
  {
    hide Busy, Beyond, Place, SetupOk, CeilDiv;
    RateBounds(u);
    FewFrames(j + 1, u.rate, u.player.outputRate);
    var g := CeilDiv(u.rate, u.player.outputRate);
    assert (j + 1) * g == j * g + g;
  }

  // Rendering up to the next source frame lets in the packet that waits and opens
  // the window by that frame, which the next packet uses up.
  lemma DripStep(u: Setup, limit: nat, v: Server, p: nat, b: nat, base: int, j: nat)
    returns (steps: seq<Step>, q: nat)
    requires Long(u) && 2 * u.rate > M.DESCRIPTORS && Drip(u, v, p, b, base, j) && j <= M.DESCRIPTORS
    ensures Sound(u, v.system)
    ensures var w := ServeAll(u, limit, v, steps); Failed(w) || Drip(u, w, q, b, base, j + 1)
  {
    hide Good, ServeAll, Place, Able, Quiet, Loaded, FrameLimit, SetupOk, CeilDiv, M.RenderCount, M.Queued, Beyond;
    RateBounds(u);
    var k := DripFrames(u, v, p);
    q := p + k;
    DripRoom(u, v, p, b, base, j);
    var pass := Pass(u, limit, v, p, k);
    var w := ServeAll(u, limit, v, pass);
    steps := pass;
    if !Failed(w) {
      var give := Give(u, limit, w, q);
      var x := ServeAll(u, limit, w, give);
      ServeConcat(u, limit, v, pass, give);
      steps := pass + give;
      Grown(v.system, w.system, x.system, b, 2 * u.rate + base);
    }
  }

  lemma {:induction false} DripFails(u: Setup, limit: nat, v: Server, p: nat, b: nat, base: int, j: nat)
    returns (steps: seq<Step>)
    requires Long(u) && 2 * u.rate > M.DESCRIPTORS && Drip(u, v, p, b, base, j) && j <= M.DESCRIPTORS + 1
    ensures Sound(u, v.system) && Failed(ServeAll(u, limit, v, steps))
    decreases M.DESCRIPTORS + 1 - j
  {
    hide Good, ServeAll, Place, Loaded, FrameLimit, SetupOk, CeilDiv, Neutral, Execute;
    if j == M.DESCRIPTORS + 1 {
      RateBounds(u);
      FewFrames(j, u.rate, u.player.outputRate);
      var moves := Overflows(u, v.system, p, b, 2 * u.rate + base);
      NeutralServed(u, limit, v, moves);
      steps := Steps(moves);
    } else {
      var q;
      steps, q := DripStep(u, limit, v, p, b, base, j);
      var w := ServeAll(u, limit, v, steps);
      if !Failed(w) {
        var more := DripFails(u, limit, w, q, b, base, j + 1);
        ServeConcat(u, limit, v, steps, more);
        steps := steps + more;
      }
    }
  }

  lemma ServerFails(u: Setup, limit: nat) returns (steps: seq<Step>)
    requires Long(u) && 2 * u.rate > M.DESCRIPTORS && limit > 0
    ensures Failed(ServeAll(u, limit, Start(u), steps))
  {
    hide Good, ServeAll, Place, Able, Quiet, Loaded, FrameLimit, SetupOk, CeilDiv, Start;
    var a := Starts(u, limit);
    var v := ServeAll(u, limit, Start(u), a);
    steps := a;
    if !Failed(v) {
      var b, p := Kicks(u, limit, v);
      var w := ServeAll(u, limit, v, b);
      var c := Fill(u, limit, w, p);
      var x := ServeAll(u, limit, w, c);
      ServeConcat(u, limit, Start(u), a, b);
      ServeConcat(u, limit, Start(u), a + b, c);
      steps := a + b + c;
      if !Failed(x) {
        var d := DripFails(u, limit, x, p, |x.system.player.view.packets| + 1, Place(u, p), 0);
        ServeConcat(u, limit, Start(u), steps, d);
        steps := steps + d;
      }
    }
  }

  // Every output rate that fits 32 bits leaves room for so long a generation.
  lemma LongEnough(u: Setup)
    requires SetupOk(u) && u.player.outputRate <= 0x1_0000_0000
    ensures 5 * u.rate <= FrameLimit(u)
  {
    RateBounds(u);
    var m := Max(u.player.outputRate, u.rate);
    hide SetupOk;
    MulMono(5 * u.rate, 960000, m);
    LeFloor(5 * u.rate, M.MAX_SAFE_INTEGER, m);
  }

  // The send loop is safe whatever the timing if and only if the table holds two
  // seconds of single frames, provided generations may last five seconds.
  lemma ServerExact(u: Setup, limit: nat)
    requires SetupOk(u) && limit > 0 && 5 * u.rate <= FrameLimit(u)
    ensures (forall steps :: ServeAll(u, limit, Start(u), steps).system.fault == NoFault)
            <==> 2 * u.rate <= M.DESCRIPTORS
  {
    hide Good, ServeAll, Execute, FrameLimit, SetupOk;
    if 2 * u.rate <= M.DESCRIPTORS {
      forall steps ensures ServeAll(u, limit, Start(u), steps).system.fault == NoFault {
        ServedSafe(u, limit, steps);
      }
    } else {
      var steps := ServerFails(u, limit);
    }
  }

  lemma ServedSafe(u: Setup, limit: nat, steps: seq<Step>)
    requires SetupOk(u) && 2 * u.rate <= M.DESCRIPTORS
    ensures ServeAll(u, limit, Start(u), steps).system.fault == NoFault
  {
    hide Good, ServeAll, SetupOk, Execute;
    var moves := ServedIsRun(u, limit, Start(u), steps);
    Served(u, moves);
    D.NeverFails(u, moves, 1);
  }

  lemma Served(u: Setup, moves: seq<Move>)
    requires SetupOk(u)
    ensures Execute(u, Start(u).system, moves) == Reach(u, moves)
  {
  }
}

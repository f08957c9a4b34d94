// The one fault of the protocol does occur: the size of packets for which it
// cannot is exactly the size of which the descriptor table holds two seconds.
module ProtocolFlood {
  import opened Arithmetic
  import C = Client
  import F = Flow
  import M = PlayerModel
  import opened PlayerInvariant
  import R = PlayerRuns
  import A = PlayerAck
  import K = PlayerCredit
  import opened Protocol
  import opened ProtocolInvariant
  import opened ProtocolSteps
  import opened ProtocolPlayer
  import opened ProtocolRuns
  import D = ProtocolDescriptors
  import opened ProtocolCycles

  // The chunk is announced, the player learns the rate, the window opens.
  const OPENING: seq<Move> := [BeginMove, SessionReceiveMove, PlayerReceiveMove, SenderReceiveMove]

  // Nothing has been written yet.
  ghost predicate Fresh(s: System) { s.sender.flow.reserved == 0 && s.player.view.packets == [] }

  // --- opening ----------------------------------------------------------------

  lemma AnnounceStep(u: Setup)
    requires SetupOk(u)
    ensures Good(u, Init(u)) && CanBegin(Init(u)) && Init(u).fault == NoFault
    ensures var s := Begin(Init(u));
      && Good(u, s) && s.fault == NoFault && s.down != []
      && var t := SessionReceive(u, s);
         && Good(u, t) && t.fault == NoFault && t.down == [] && t.port == [R.FormatEvent(u.generation, u.rate)]
         && |t.up| == 1 && t.up[0] == C.CreditMsg(F.Credit(2 * u.rate, 0, 0, 0)) && t.client.Some?
         && t.sender == Init(u).sender.(open := true) && t.player == Init(u).player
  {
    hide Good, Init, R.Step;
    InitGood(u);
    InitQuiet(u);
    NextGood(u, Init(u), BeginMove);
    NextGood(u, Begin(Init(u)), SessionReceiveMove);
  }

  lemma InitQuiet(u: Setup)
    requires SetupOk(u)
    ensures var s := Init(u);
            s.fault == NoFault && CanBegin(s) && s.down == [] && s.port == [] && s.up == [] && s.client.None?
  {
    hide Good, Inv;
  }

  // The first snapshot opens the two-second window.
  lemma CreditOpens(u: Setup, t: System)
    requires Good(u, t) && t.fault == NoFault && |t.up| == 1 && t.up[0] == C.CreditMsg(F.Credit(2 * u.rate, 0, 0, 0))
    requires SetupOk(u) && t.sender == Init(u).sender.(open := true)
    ensures var d := SenderReceive(t);
      && d == t.(up := [], sender := d.sender) && Window(u, d.sender, 0) && d.sender.flow.reserved == 0
  {
    hide Good, SetupOk, F.Acceptable, Init, F.CreditRequired, F.Fresh;
    HonestAccepted(u, t);
    InitSender(u);
    OpenBooks(u, t);
  }

  lemma InitSender(u: Setup)
    requires SetupOk(u)
    ensures var d := Init(u).sender;
      && !d.finished && d.unrecorded == 0 && d.timelineSent == 0 && d.timelinePlayed == 0
      && d.flow.reserved == 0 && d.flow.received == 0 && d.flow.played == 0
  {
    hide K.Room;
  }

  // A first snapshot that is accepted is the window.
  lemma OpenBooks(u: Setup, t: System)
    requires |t.up| == 1 && t.up[0] == C.CreditMsg(F.Credit(2 * u.rate, 0, 0, 0))
    requires var d := t.sender;
      && d.open && !d.finished && d.unrecorded == 0 && d.flow.reserved == 0 && d.flow.received == 0
      && d.flow.played == 0
      && F.Acceptable(d.flow, t.up[0].credit)
    ensures var d := SenderReceive(t);
      && d == t.(up := [], sender := d.sender) && Window(u, d.sender, 0) && d.sender.flow.reserved == 0
  {
    hide F.Acceptable;
    assert t.up[1..] == [];
  }

  lemma OpenStep(u: Setup, s: System)
    requires Good(u, s) && s.fault == NoFault && s.down == [] && s.port == [R.FormatEvent(u.generation, u.rate)]
             && s.client.Some?
    requires |s.up| == 1 && s.up[0] == C.CreditMsg(F.Credit(2 * u.rate, 0, 0, 0))
    requires SetupOk(u) && s.sender == Init(u).sender.(open := true) && s.player == Init(u).player
    ensures var t := PlayerReceive(s);
      && Good(u, t) && t.fault == NoFault && t.up != []
      && Able(u, SenderReceive(t), 0) && Fresh(SenderReceive(t))
  {
    hide Good, PlayerReceive, SenderReceive, Window, Init;
    InitPlayer(u);
    PlayerKeeps(u, s);
    HeadMoves(u, s);
    PlayerTakes(s);
    AdvanceView(s.player, s.port[0]);
    FormatPauses(s.player.view, u.generation, u.rate);
    var t := PlayerReceive(s);
    CreditOpens(u, t);
    ReceiptGood(u, t);
  }

  lemma ReceiptGood(u: Setup, s: System)
    requires Good(u, s) && s.fault == NoFault && s.up != []
    ensures Good(u, SenderReceive(s)) && SenderReceive(s).fault == NoFault
  {
    NextGood(u, s, SenderReceiveMove);
    hide Good, SenderReceive;
  }

  lemma InitPlayer(u: Setup)
    requires SetupOk(u)
    ensures var v := Init(u).player.view;
            Inv(v) && v.stream.played == 0 && v.stream.source == [] && v.packets == [] && !v.paused
  {
    InitGood(u);
  }

  lemma FormatPauses(v: M.View, id: string, rate: int)
    requires Inv(v)
    ensures var w := R.Step(v, R.FormatEvent(id, rate));
            w.stream.epoch == v.stream.epoch ==> w.paused == v.paused
  {
    R.FailStarts(v, "invalid_format");
    if rate >= 0 { R.PostKeeps(M.WithRate(v, rate), M.Credit); }
    hide Inv, M.Fail, M.Post;
  }

  lemma Opened(u: Setup)
    requires SetupOk(u)
    ensures Sound(u, Init(u)) && Able(u, Execute(u, Init(u), OPENING), 0)
    ensures Fresh(Execute(u, Init(u), OPENING))
  {
    hide Good, Window, Fresh, PlayerReceive, SenderReceive, SessionReceive, Begin, Init, CanBegin, Try, Execute;
    AnnounceStep(u);
    var s := Begin(Init(u));
    var t := SessionReceive(u, s);
    PlayerInv(u, t);
    OpenStep(u, t);
    var x := PlayerReceive(t);
    Taken(u, Init(u), BeginMove);
    Taken(u, s, SessionReceiveMove);
    Taken(u, t, PlayerReceiveMove);
    Taken(u, x, SenderReceiveMove);
    ExecuteTwo(u, Init(u), BeginMove, SessionReceiveMove);
    ExecuteTwo(u, t, PlayerReceiveMove, SenderReceiveMove);
    ExecuteConcat(u, Init(u), [BeginMove, SessionReceiveMove], [PlayerReceiveMove, SenderReceiveMove]);
    assert OPENING == [BeginMove, SessionReceiveMove] + [PlayerReceiveMove, SenderReceiveMove];
  }

  // --- a table overfull -------------------------------------------------------

  // From the b-th packet on all end beyond x, the one that waits included.
  ghost predicate Beyond(s: System, b: nat, x: int) {
    var packets := s.player.view.packets;
    && |packets| + 1 >= b && (|packets| >= b ==> s.sender.flow.reserved > x)
    && forall i | b <= i < |packets| :: packets[i] > x
  }

  lemma {:induction false} RetireKeeps(ends: seq<nat>, position: nat, b: nat)
    requires b <= |ends| && forall i | b <= i < |ends| :: ends[i] > position
    ensures |M.Retire(ends, position)| >= |ends| - b
    decreases |ends|
  {
    if ends != [] && ends[0] <= position { RetireKeeps(ends[1..], position, b - 1); }
  }

  // No more packets lie beyond the reported position than the table has entries.
  lemma HasRoom(u: Setup, t: System, p: nat, b: nat)
    requires Able(u, t, p) && b <= |t.player.view.packets|
    requires forall i | b <= i < |t.player.view.packets| :: t.player.view.packets[i] > Place(u, p)
    ensures |t.player.view.packets| <= b + M.DESCRIPTORS
  {
    var v := t.player.view;
    PlayerInv(u, t);
    assert DescriptorsOk(v);
    if v.packets != [] {
      InPlace(u, t);
      hide Good, Place;
      RetireKeeps(v.packets, v.playedSource, b);
    }
  }

  lemma PlayNothing(v: M.View)
    requires Inv(v)
    ensures M.Queued(v) >= 0 && M.RenderCount(v, 0) == 0
  {
  }

  // So the packet that waits does not find room.
  lemma Overflows(u: Setup, s: System, p: nat, b: nat, x: int) returns (moves: seq<Move>)
    requires Loaded(u, s, p) && 0 <= Place(u, p) <= |s.player.view.stream.source| && Place(u, p) <= x
    requires Beyond(s, b, x) && b + M.DESCRIPTORS <= |s.player.view.packets|
    ensures Sound(u, s) && forall i | 0 <= i < |moves| :: Neutral(moves[i])
    ensures Execute(u, s, moves).fault == DescriptorLimit
  {
    hide Good, Inv, Execute, Place, M.RenderCount, M.Queued, Neutral;
    WaitingSource(u, s, p);
    PlayNothing(s.player.view);
    moves := Cycle(u, s, p, 0);
    var t := Execute(u, s, moves);
    if t.fault != DescriptorLimit { HasRoom(u, t, p, b); }
  }

  // --- packets of at least so many frames --------------------------------------

  predicate Sends(moves: seq<Move>, least: nat) {
    forall i | 0 <= i < |moves| && moves[i].SendMove? :: |moves[i].samples| >= least
  }

  lemma SendsConcat(a: seq<Move>, b: seq<Move>, least: nat)
    requires Sends(a, least) && Sends(b, least)
    ensures Sends(a + b, least)
  {
  }

  lemma NeutralSends(moves: seq<Move>, least: nat)
    requires forall i | 0 <= i < |moves| :: Neutral(moves[i])
    ensures Sends(moves, least)
  {
  }

  // The fewest output frames that reach one frame less than a packet, and where
  // they get to: the first packet is just longer.
  function Played(u: Setup, least: nat): nat {
    if u.rate > 0 then Max(0, CeilDiv((least - 1) * u.player.outputRate, u.rate)) else 0
  }

  function Edge(u: Setup, least: nat): int { Place(u, Played(u, least)) }

  ghost predicate Tiny(u: Setup, least: nat) {
    && SetupOk(u) && least > 0 && M.DESCRIPTORS * least < 2 * u.rate && 4 * u.rate <= FrameLimit(u)
  }

  // A k-th of so small a part of a second is small too.
  lemma SmallShare(k: int, least: nat, r: nat, o: nat)
    requires (k - 1) * r < (least - 1) * o && 2048 * least < r && o >= 8000
    ensures 2 * k <= o
  {
    MulMono(2048 * (least - 1), r, o);
    assert 2048 * ((least - 1) * o) == 2048 * (least - 1) * o;
    assert 2048 * ((k - 1) * r) == 2048 * (k - 1) * r;
    if 2048 * (k - 1) >= o { MulMono(o, 2048 * (k - 1), r); }
  }

  // Rounding up to a whole output frame adds at most one of them.
  lemma RoundedUp(k: int, least: nat, r: nat, o: nat, place: int)
    requires (least - 1) * o <= k * r < (least - 1) * o + r && place * o <= k * r < (place + 1) * o && o >= 8000
    ensures least - 1 <= place && 8000 * (place - least + 1) <= r
  {
    if place < least - 1 { MulMono(place + 1, least - 1, o); }
    assert (place - (least - 1)) * o == place * o - (least - 1) * o;
    MulMono(8000, o, place - (least - 1));
  }

  lemma PlayedBounds(u: Setup, least: nat)
    requires u.rate > 0 && least > 0
    ensures var reach, k := (least - 1) * u.player.outputRate, Played(u, least);
            reach <= k * u.rate < reach + u.rate
  {
    var reach, k := (least - 1) * u.player.outputRate, CeilDiv((least - 1) * u.player.outputRate, u.rate);
    LtCeil(-1, reach, u.rate);
    LtCeil(k - 1, reach, u.rate);
    LtCeil(k, reach, u.rate);
    assert (k - 1) * u.rate == k * u.rate - u.rate;
  }

  lemma RoundedFacts(k: int, least: nat, r: nat, o: nat)
    requires 2048 * least < r && o >= 8000 && (least - 1) * o <= k * r < (least - 1) * o + r
    ensures 2 * k <= o && least - 1 <= k * r / o && 8000 * (k * r / o - least + 1) <= r
  {
    assert (k - 1) * r == k * r - r;
    SmallShare(k, least, r, o);
    DivBounds(k * r, o);
    RoundedUp(k, least, r, o, k * r / o);
  }

  lemma TinyFacts(u: Setup, least: nat)
    requires Tiny(u, least)
    ensures 2 * Played(u, least) <= u.player.outputRate
    ensures least - 1 <= Edge(u, least) && 8000 * (Edge(u, least) - least + 1) <= u.rate
  {
    hide Tiny, Played;
    TinyBasics(u, least);
    PlayedBounds(u, least);
    RoundedFacts(Played(u, least), least, u.rate, u.player.outputRate);
  }

  lemma TinyBasics(u: Setup, least: nat)
    requires Tiny(u, least)
    ensures least > 0 && 2048 * least < u.rate && u.player.outputRate >= 8000
  {
    hide FrameLimit, K.Room;
  }

  // n packets are written, the first just longer than what is rendered at most, the
  // others of `least` frames; none has been played to its end.
  ghost predicate Small(u: Setup, s: System, p: nat, n: nat, least: nat) {
    && Loaded(u, s, p) && p in [0, Played(u, least)] && |s.player.view.packets| + 1 == n
    && Beyond(s, 0, Edge(u, least)) && s.sender.flow.reserved == Edge(u, least) + 1 + (n - 1) * least
    && |s.port[0].samples| <= Edge(u, least) + 1
    && (p > 0 ==> |s.player.view.stream.source| >= u.rate)
  }

  function Silence(frames: nat): seq<real> { seq(frames, _ => 0.0) }

  lemma FirstSmall(u: Setup, s: System, least: nat) returns (moves: seq<Move>)
    requires Tiny(u, least) && Able(u, s, 0) && Fresh(s)
    ensures Sound(u, s) && Sends(moves, least) && Small(u, Execute(u, s, moves), 0, 1, least)
  {
    hide Good, Execute, Played, Place, FrameLimit;
    TinyFacts(u, least);
    PlaceNone(u);
    var frames := Edge(u, least) + 1;
    moves := Write(Silence(frames));
    Loads(u, s, 0, Silence(frames));
  }

  lemma SmallPlace(u: Setup, s: System, p: nat, n: nat, least: nat)
    requires Tiny(u, least) && Small(u, s, p, n, least)
    ensures 0 <= Place(u, p) <= |s.player.view.stream.source| && Place(u, p) <= Edge(u, least)
  {
    hide Good, Loaded, Played, FrameLimit, Beyond;
    TinyFacts(u, least);
    PlaceNone(u);
  }

  lemma PlaceNone(u: Setup)
    ensures Place(u, 0) == 0
  {
  }

  lemma WriteSends(samples: seq<real>, least: nat)
    requires |samples| >= least
    ensures Sends(Write(samples), least)
  {
  }

  // How many frames to render before the next packet: none when it fits.
  lemma Rest(u: Setup, s: System, p: nat, n: nat, least: nat) returns (k: nat)
    requires Tiny(u, least) && Small(u, s, p, n, least) && n <= M.DESCRIPTORS
    ensures p + k in [0, Played(u, least)] && 0 <= Place(u, p + k) <= |s.player.view.stream.source|
    ensures s.sender.flow.reserved + least <= 2 * u.rate + Place(u, p + k)
    ensures Inv(s.player.view) && M.Queued(s.player.view) >= 0 && M.RenderCount(s.player.view, k) == k
    ensures p + k > 0 ==> s.sender.flow.reserved >= u.rate
  {
    hide Good, Inv, Played, Place, M.RenderCount, M.Queued, A.Acked;
    TinyFacts(u, least);
    PlaceNone(u);
    WaitingSource(u, s, p);
    PlayNothing(s.player.view);
    MulMono(n, M.DESCRIPTORS, least);
    assert n * least == (n - 1) * least + least;
    if s.sender.flow.reserved + least <= 2 * u.rate + Place(u, p) {
      k := 0;
    } else {
      k := Played(u, least);
      WaitingAhead(u, s, p);
      CanPlay(s.player.view, k);
    }
  }

  // What arrived and what is written next lie beyond the same place.
  lemma Grown(s: System, t: System, w: System, b: nat, x: int)
    requires Beyond(s, b, x) && t.player.view.packets == s.player.view.packets + [s.sender.flow.reserved]
    requires w.player == t.player && w.sender.flow.reserved > x
    ensures Beyond(w, b, x)
  {
  }

  lemma WithinLimit(u: Setup, q: nat, least: nat, frames: int)
    requires Tiny(u, least) && q in [0, Played(u, least)] && frames <= 2 * u.rate + Place(u, q)
    ensures SetupOk(u) && frames <= FrameLimit(u)
  {
    hide Played, Place, FrameLimit;
    TinyFacts(u, least);
    PlaceNone(u);
  }

  // One more packet of `least` frames, once the one that waited has arrived.
  lemma OneMore(u: Setup, s: System, t: System, p: nat, q: nat, n: nat, least: nat)
    requires Tiny(u, least) && Small(u, s, p, n, least) && Able(u, t, q) && Same(s.sender, t.sender)
    requires t.player.view.packets == s.player.view.packets + [s.sender.flow.reserved]
    requires q in [0, Played(u, least)] && s.sender.flow.reserved + least <= 2 * u.rate + Place(u, q)
    requires q > 0 ==> s.sender.flow.reserved >= u.rate
    ensures Sound(u, t) && Small(u, Execute(u, t, Write(Silence(least))), q, n + 1, least)
  {
    hide Good, Inv, Execute, Played, Edge, Place, FrameLimit, Window, CanSend, Ready, Tiny, Loaded, Able, Write, Beyond;
    TinyBasics(u, least);
    TinyFacts(u, least);
    assert (n + 1 - 1) * least == (n - 1) * least + least;
    WithinLimit(u, q, least, s.sender.flow.reserved + least);
    CanWrite(u, t, q, Silence(least));
    Loads(u, t, q, Silence(least));
    AbleSource(u, t, q);
    var w := Execute(u, t, Write(Silence(least)));
    EdgeBefore(s, t, w, Edge(u, least));
    Grown(s, t, w, 0, Edge(u, least));
  }

  lemma NextSmall(u: Setup, s: System, p: nat, n: nat, least: nat) returns (moves: seq<Move>, q: nat)
    requires Tiny(u, least) && Small(u, s, p, n, least) && n <= M.DESCRIPTORS
    ensures Sound(u, s) && Sends(moves, least)
    ensures var t := Execute(u, s, moves); t.fault == DescriptorLimit || Small(u, t, q, n + 1, least)
  {
    hide Good, Inv, Execute, Played, Edge, Place, M.RenderCount, M.Queued, Neutral, Quiet, Beyond, Window, Tiny,
         Waiting, Sends, Able, Write;
    var k := Rest(u, s, p, n, least);
    q := p + k;
    moves := Cycle(u, s, p, k);
    NeutralSends(moves, least);
    var t := Execute(u, s, moves);
    if t.fault != DescriptorLimit {
      OneMore(u, s, t, p, q, n, least);
      WriteSends(Silence(least), least);
      ExecuteConcat(u, s, moves, Write(Silence(least)));
      SendsConcat(moves, Write(Silence(least)), least);
      moves := moves + Write(Silence(least));
    }
  }

  lemma EdgeBefore(s: System, t: System, w: System, x: int)
    requires Beyond(s, 0, x) && t.player.view.packets == s.player.view.packets + [s.sender.flow.reserved]
    requires w.sender.flow.reserved >= s.sender.flow.reserved
    ensures w.sender.flow.reserved > x
  {
  }

  lemma AbleSource(u: Setup, s: System, p: nat)
    requires Able(u, s, p)
    ensures |s.player.view.stream.source| == s.sender.flow.reserved
  {
    assert s.sender.produced == s.player.view.stream.source + PortSamples([]) + DownSamples([]);
  }

  lemma {:induction false} SmallFails(u: Setup, s: System, p: nat, n: nat, least: nat) returns (moves: seq<Move>)
    requires Tiny(u, least) && Small(u, s, p, n, least) && n <= M.DESCRIPTORS + 1
    ensures Sound(u, s) && Sends(moves, least) && Execute(u, s, moves).fault == DescriptorLimit
    decreases M.DESCRIPTORS + 1 - n
  {
    hide Good, Inv, Execute, Played, Place;
    if n == M.DESCRIPTORS + 1 {
      SmallPlace(u, s, p, n, least);
      moves := Overflows(u, s, p, 0, Edge(u, least));
      NeutralSends(moves, least);
    } else {
      var q;
      moves, q := NextSmall(u, s, p, n, least);
      var t := Execute(u, s, moves);
      if t.fault != DescriptorLimit {
        var more := SmallFails(u, t, q, n + 1, least);
        ExecuteConcat(u, s, moves, more);
        SendsConcat(moves, more, least);
        moves := moves + more;
      }
    }
  }

  lemma TinyFails(u: Setup, least: nat) returns (moves: seq<Move>)
    requires Tiny(u, least)
    ensures Sends(moves, least) && Reach(u, moves).fault == DescriptorLimit
  {
    hide Good, Able, Fresh, Small, Execute, Init;
    Opened(u);
    var s := Execute(u, Init(u), OPENING);
    var first := FirstSmall(u, s, least);
    var rest := SmallFails(u, Execute(u, s, first), 0, 1, least);
    ExecuteConcat(u, Init(u), OPENING, first);
    ExecuteConcat(u, Init(u), OPENING + first, rest);
    SendsConcat(OPENING, first, least);
    SendsConcat(OPENING + first, rest, least);
    moves := OPENING + first + rest;
  }

  // Packets of at least so many frames are safe if and only if the table holds two
  // seconds of them, provided generations may last four.
  lemma PacketSizeExact(u: Setup, least: nat)
    requires SetupOk(u) && least > 0 && 4 * u.rate <= FrameLimit(u)
    ensures (forall moves | Sends(moves, least) :: Reach(u, moves).fault == NoFault)
            <==> M.DESCRIPTORS * least >= 2 * u.rate
  {
    hide Good, Reach, FrameLimit;
    if M.DESCRIPTORS * least >= 2 * u.rate {
      forall moves | Sends(moves, least) ensures Reach(u, moves).fault == NoFault {
        D.NeverFails(u, moves, least);
      }
    } else {
      var moves := TinyFails(u, least);
    }
  }
}
